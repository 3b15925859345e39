/**
 * The daily reconciliation page: the totals of the main till and of the
 * computer till, their difference, its three-way classification, and the
 * page state built around one daily record (load, edit a field, save, reset).
 */
module CariPage {
  import opened Wrappers
  import opened Storage

  /** The four amount fields of a daily record that the page edits. */
  datatype Till = MainCash | MainCard | PcCash | PcCard

  function Field(r: DailyRecord, f: Till): Cell
  {
    match f
    case MainCash => r.mainCash
    case MainCard => r.mainCard
    case PcCash => r.pcCash
    case PcCard => r.pcCard
  }

  function WithField(r: DailyRecord, f: Till, v: Cell): (r': DailyRecord)
    ensures Field(r', f) == v
    ensures forall g :: g != f ==> Field(r', g) == Field(r, g)
    ensures r'.date == r.date
  {
    match f
    case MainCash => r.(mainCash := v)
    case MainCard => r.(mainCard := v)
    case PcCash => r.(pcCash := v)
    case PcCard => r.(pcCard := v)
  }

  /** The record for `date` with all four amounts 0: what the page shows for a date with no row. */
  function ZeroRecord(date: string): (r: DailyRecord)
    ensures r.date == date
    ensures forall f :: Field(r, f) == Some(0.0)
  {
    DailyRecord(date, Some(0.0), Some(0.0), Some(0.0), Some(0.0))
  }

  // ---------------------------------------------------------------------------
  // Totals and variance

  /** `anaKasaToplam`: main till cash plus card, a missing amount counting as 0. */
  function MainTotal(r: DailyRecord): real
  {
    OrZero(r.mainCash) + OrZero(r.mainCard)
  }

  /** `pcToplam`: computer till cash plus card, a missing amount counting as 0. */
  function PcTotal(r: DailyRecord): real
  {
    OrZero(r.pcCash) + OrZero(r.pcCard)
  }

  /** `fark`: how much more the main till holds than the computer till records. */
  function Variance(r: DailyRecord): (fark: real)
    ensures fark > 0.0 <==> MainTotal(r) > PcTotal(r)
    ensures fark < 0.0 <==> MainTotal(r) < PcTotal(r)
    ensures fark + PcTotal(r) == MainTotal(r)
  {
    MainTotal(r) - PcTotal(r)
  }

  /** The three verdicts the page shows: FAZLALIK (surplus), AÇIK (shortage), NÖTR (neutral). */
  datatype Verdict = Surplus | Shortage | Neutral

  function Label(v: Verdict): string
  {
    match v
    case Surplus => "FAZLALIK"
    case Shortage => "AÇIK"
    case Neutral => "NÖTR"
  }

  /** The classification is total and exclusive: exactly one verdict for every variance. */
  function Classify(fark: real): (v: Verdict)
    ensures v == Surplus <==> fark > 0.0
    ensures v == Shortage <==> fark < 0.0
    ensures v == Neutral <==> fark == 0.0
  {
    if fark > 0.0 then Surplus else if fark < 0.0 then Shortage else Neutral
  }

  /** A missing (NULL) amount counts exactly as an amount of 0 in both totals and the variance. */
  lemma MissingAmountCountsAsZero(r: DailyRecord, f: Till)
    ensures MainTotal(WithField(r, f, None)) == MainTotal(WithField(r, f, Some(0.0)))
    ensures PcTotal(WithField(r, f, None)) == PcTotal(WithField(r, f, Some(0.0)))
    ensures Variance(WithField(r, f, None)) == Variance(WithField(r, f, Some(0.0)))
  {
    var a := WithField(r, f, None);
    var b := WithField(r, f, Some(0.0));
    assert a.mainCash == Field(a, MainCash) && b.mainCash == Field(b, MainCash);
    assert a.mainCard == Field(a, MainCard) && b.mainCard == Field(b, MainCard);
    assert a.pcCash == Field(a, PcCash) && b.pcCash == Field(b, PcCash);
    assert a.pcCard == Field(a, PcCard) && b.pcCard == Field(b, PcCard);
  }

  /** Raising one till amount moves the variance by the same amount, up for the main till and down for the computer till. */
  lemma VarianceMovesWithAmounts(r: DailyRecord, f: Till, x: real)
    ensures f == MainCash || f == MainCard ==>
      Variance(WithField(r, f, Some(OrZero(Field(r, f)) + x))) == Variance(r) + x
    ensures f == PcCash || f == PcCard ==>
      Variance(WithField(r, f, Some(OrZero(Field(r, f)) + x))) == Variance(r) - x
  {
    var a := WithField(r, f, Some(OrZero(Field(r, f)) + x));
    assert a.mainCash == Field(a, MainCash) && a.mainCard == Field(a, MainCard);
    assert a.pcCash == Field(a, PcCash) && a.pcCard == Field(a, PcCard);
  }

  /** An all-zero record balances exactly and is classified as neutral. */
  lemma ZeroRecordIsNeutral(date: string)
    ensures Variance(ZeroRecord(date)) == 0.0
    ensures Classify(Variance(ZeroRecord(date))) == Neutral
  {
  }

  // ---------------------------------------------------------------------------
  // Page state

  /**
   * The page's state: the selected date (as the `YYYY-MM-DD` string it is
   * turned into; None shows the calendar) and the record being edited.
   */
  datatype CariState = CariState(selectedDate: Option<string>, data: DailyRecord)

  /** The record being edited is the one of the selected date. */
  predicate ShowsSelectedDate(s: CariState)
  {
    s.selectedDate == Some(s.data.date)
  }

  /** The state the page starts in: no date, an empty date and zero amounts. */
  const Initial := CariState(None, ZeroRecord(""))

  /** `loadData`: the stored row when there is one, otherwise the zero record for that date. */
  function AfterLoad(s: CariState, dateStr: string, stored: Option<DailyRecord>): (s': CariState)
    ensures s'.selectedDate == s.selectedDate
    ensures stored.Some? ==> s'.data == stored.value
    ensures stored.None? ==> s'.data == ZeroRecord(dateStr)
  {
    match stored
    case Some(record) => s.(data := record)
    case None => s.(data := ZeroRecord(dateStr))
  }

  /** Whatever is stored, the loaded record is the one for the requested date. */
  lemma LoadedRecordHasDate(s: CariState, t: Tables, dateStr: string)
    requires WellFormed(t)
    ensures AfterLoad(s, dateStr, GetDaily(t, dateStr)).data.date == dateStr
    ensures dateStr !in t.daily ==> AfterLoad(s, dateStr, GetDaily(t, dateStr)).data == ZeroRecord(dateStr)
    ensures dateStr in t.daily ==> AfterLoad(s, dateStr, GetDaily(t, dateStr)).data == t.daily[dateStr]
  {
  }

  /**
   * `handleInputChange(field, value)`, where `parsed` is `parseFloat(value)`
   * (None for NaN): an empty input sets the field to 0, an unparsable one
   * leaves the state as it is, and no other field changes.
   */
  function InputChange(s: CariState, f: Till, value: string, parsed: Option<real>): (s': CariState)
    ensures value == "" ==> Field(s'.data, f) == Some(0.0)
    ensures value != "" && parsed.None? ==> s' == s
    ensures value != "" && parsed.Some? ==> Field(s'.data, f) == parsed
    ensures forall g :: g != f ==> Field(s'.data, g) == Field(s.data, g)
    ensures s'.data.date == s.data.date && s'.selectedDate == s.selectedDate
  {
    var num := if value == "" then Some(0.0) else parsed;
    if num.None? then s else s.(data := WithField(s.data, f, num))
  }

  /** `resetView`: back to the calendar with the initial record. */
  function ResetView(s: CariState): (s': CariState)
    ensures s'.selectedDate.None?
    ensures s'.data.date == "" && forall f :: Field(s'.data, f) == Some(0.0)
  {
    Initial
  }

  /** Picking a date on the calendar selects it, and the effect on the selection loads its record. */
  method SelectDate(db: Database, s: CariState, dateStr: string) returns (s': CariState)
    requires db.Valid()
    ensures s'.selectedDate == Some(dateStr)
    ensures s'.data.date == dateStr
    ensures ShowsSelectedDate(s')
    ensures s' == AfterLoad(s.(selectedDate := Some(dateStr)), dateStr, GetDaily(db.Abs(), dateStr))
  {
    var record := db.GetDailyRecord(dateStr);
    s' := AfterLoad(s.(selectedDate := Some(dateStr)), dateStr, record);
    LoadedRecordHasDate(s.(selectedDate := Some(dateStr)), db.Abs(), dateStr);
  }

  /** `handleSave`: without a selected date nothing is written; otherwise the edited record is saved whole. */
  method HandleSave(db: Database, s: CariState)
    requires db.Valid()
    modifies db
    ensures db.Valid()
    ensures s.selectedDate.None? ==> db.Abs() == old(db.Abs())
    ensures s.selectedDate.Some? ==> db.Abs() == SaveDaily(old(db.Abs()), s.data)
  {
    if s.selectedDate.None? {
      return;
    }
    db.SaveDailyRecord(s.data);
  }

  /**
   * Once `SelectDate` has made the edited record the one of the selected
   * date, editing a field keeps it so; the start and the reset select no date.
   */
  lemma EditingKeepsSelectedDate(s: CariState, f: Till, value: string, parsed: Option<real>)
    ensures ShowsSelectedDate(s) ==> ShowsSelectedDate(InputChange(s, f, value, parsed))
    ensures !ShowsSelectedDate(Initial) && !ShowsSelectedDate(ResetView(s))
  {
  }

  /** Saving the record of the selected date and loading that date again shows exactly what was saved. */
  lemma SaveThenReload(s: CariState, t: Tables, u: CariState)
    requires ShowsSelectedDate(s)
    ensures AfterLoad(u, s.data.date, GetDaily(SaveDaily(t, s.data), s.data.date)).data == s.data
  {
  }
}
