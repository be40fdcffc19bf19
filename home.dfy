/** The KPI arithmetic and the contact form of `src/components/Home.js`. */
module Home {
  import opened Base
  import opened JsArray
  import opened Trends

  /** The period length: 24 for "24h", 7 for "7d" and 30 for everything else. */
  function PeriodLength(timePeriod: string): (p: nat)
    ensures p == 24 <==> timePeriod == "24h"
    ensures p == 7 <==> timePeriod == "7d"
    ensures p == 30 <==> timePeriod != "24h" && timePeriod != "7d"
  {
    if timePeriod == "24h" then 24 else if timePeriod == "7d" then 7 else 30
  }

  function Max0(k: int): (m: nat)
    ensures m >= k
  {
    if k < 0 then 0 else k
  }

  /** The slices the generic branch evidently means: the last `min(p, n)`
      values and the at most as many values just before them, adjacent and in
      order. */
  function GenericSlices(data: seq<real>, p: nat): (s: Periods<real>)
    ensures var n := |data|;
            var size := Min(p, n);
            && s.current == data[n - size..]
            && s.previous == data[n - Min(2 * size, n)..n - size]
            && |s.previous| == Min(size, n - size)
            && s.previous + s.current == data[n - Min(2 * size, n)..]
  {
    var n := |data|;
    var size := Min(p, n);
    assert data[n - Min(2 * size, n)..n - size] + data[n - size..] == data[n - Min(2 * size, n)..];
    Periods(data[Max0(n - p)..], data[Max0(n - 2 * p)..Max0(n - p)])
  }

  /** The generic branch's slices exactly as written: both start positions are
      computed as `data.length - periodLength` and `data.length - 2 *
      periodLength` and handed to `slice`, which reads a negative start as a
      position counted from the end. With at least two full periods of data
      these are the intended slices. */
  function GenericSlicesAsWritten(data: seq<real>, p: nat): (s: Periods<real>)
    ensures |data| >= 2 * p ==> s == GenericSlices(data, p)
  {
    var n := |data|;
    var s := Periods(Slice(data, n - p, None), Slice(data, n - 2 * p, Some(n - p)));
    assert n >= 2 * p ==> s == GenericSlices(data, p) by {
      if n >= 2 * p {
        SliceResolved(data, n - p, None, n - p, n);
        SliceResolved(data, n - 2 * p, Some(n - p), n - 2 * p, n - p);
      }
    }
    s
  }

  /** Twenty values against a thirty-day period: as written, the current period
      is only the last ten values and the first ten become a "previous" period,
      where every value belongs to the current one and none precede it. */
  lemma AsWrittenShortSeries(data: seq<real>)
    requires |data| == 20
    ensures GenericSlicesAsWritten(data, 30) == Periods(data[10..], data[..10])
    ensures GenericSlices(data, 30) == Periods(data, [])
  {
    SliceResolved(data, -10, None, 10, 20);
    SliceResolved(data, -40, Some(-10), 0, 10);
    assert data[0..10] == data[..10];
  }

  /** Forty values against a thirty-day period: as written, the previous period
      is empty although ten values precede the current one. */
  lemma AsWrittenMidSeries(data: seq<real>)
    requires |data| == 40
    ensures GenericSlicesAsWritten(data, 30) == Periods(data[10..], [])
    ensures GenericSlices(data, 30) == Periods(data[10..], data[..10])
  {
    SliceResolved(data, 10, None, 10, 40);
    SliceResolved(data, -20, Some(10), 20, 10);
    assert data[0..10] == data[..10];
  }

  /** For the "7d" and "30d" windows the intended slices are those of `periodSplit`. */
  lemma GenericSlicesArePeriodSplit(data: seq<real>, timePeriod: string)
    requires timePeriod == "7d" || timePeriod == "30d"
    requires data != []
    ensures GenericSlices(data, PeriodLength(timePeriod)) == PeriodSplit(data, Some(timePeriod))
  {
    PeriodSplitShape(data, Some(timePeriod));
  }

  /** The trend between the two period sums: the policy `pctChange` follows. */
  function Trend(currentSum: real, previousSum: real): (r: real)
    ensures r == PctChange(currentSum, Some(previousSum))
  {
    if previousSum != 0.0 then (currentSum - previousSum) / previousSum * 100.0
    else if currentSum > 0.0 then 100.0
    else 0.0
  }

  /** What `getKpiValuesFunc` returns. */
  datatype KpiValues = KpiValues(currentValue: real, trend: real,
                                 currentPeriodData: seq<real>, previousPeriodData: seq<real>)

  /** `getKpiValuesFunc(data, calculationType, kpiTitle)` for a title without a
      hard-coded branch, on the intended slices. */
  function GetKpiValues(data: seq<real>, calculationType: string, timePeriod: string): (k: KpiValues)
    ensures k.trend == PctChange(Sum(k.currentPeriodData), Some(Sum(k.previousPeriodData)))
  {
    var p := PeriodLength(timePeriod);
    var s := GenericSlices(data, p);
    var currentSum := Sum(s.current);
    var displayValue := if calculationType == "average" then currentSum / (p as real) else currentSum;
    KpiValues(displayValue, Trend(currentSum, Sum(s.previous)), s.current, s.previous)
  }

  /** With two full periods of data the card shows the sum of the last period
      (divided by the period length, not the slice length, for "average"),
      the arrays are exactly the summed slices, and the trend compares them. */
  lemma KpiValuesOfLongSeries(data: seq<real>, calculationType: string, timePeriod: string)
    requires |data| >= 2 * PeriodLength(timePeriod)
    ensures var n := |data|;
            var p := PeriodLength(timePeriod);
            var k := GetKpiValues(data, calculationType, timePeriod);
            && k.currentPeriodData == data[n - p..]
            && k.previousPeriodData == data[n - 2 * p..n - p]
            && |k.currentPeriodData| == p && |k.previousPeriodData| == p
            && k.currentValue == (if calculationType == "average" then Sum(data[n - p..]) / (p as real)
                                  else Sum(data[n - p..]))
            && k.trend == Trend(Sum(data[n - p..]), Sum(data[n - 2 * p..n - p]))
  {
  }

  /** The contact form's state. */
  class ContactForm {
    var showContactForm: bool
    var contactEmail: string
    var loading: bool
    var submissionMessage: string
    var submissionError: string

    constructor()
      ensures !showContactForm && contactEmail == "" && !loading
      ensures submissionMessage == "" && submissionError == ""
    {
      showContactForm := false;
      contactEmail := "";
      loading := false;
      submissionMessage := "";
      submissionError := "";
    }

    /** The synchronous part of `handleContactSubmit`, up to the insert into
        `contacts`; returns the email it inserts, or `None` when the guard
        stops the submit. */
    method BeginSubmit() returns (sent: Option<string>)
      modifies this
      ensures old(contactEmail) == "" ==> sent == None && unchanged(this)
      ensures old(contactEmail) != "" ==>
        && sent == Some(old(contactEmail))
        && loading && submissionMessage == "" && submissionError == ""
        && contactEmail == old(contactEmail) && showContactForm == old(showContactForm)
    {
      if contactEmail == "" {
        return None;
      }
      loading := true;
      submissionMessage := "";
      submissionError := "";
      sent := Some(contactEmail);
    }

    /** The rest of `handleContactSubmit`, once the insert has answered. */
    method EndSubmit(reply: Outcome)
      modifies this
      ensures !loading && showContactForm == old(showContactForm)
      ensures reply.Success? ==>
        && submissionMessage == "Thank you! We will contact you soon."
        && contactEmail == ""
        && submissionError == old(submissionError)
      ensures reply.Failure? ==>
        && submissionError == OrElse(reply.message, "Something went wrong. Please try again.")
        && contactEmail == old(contactEmail)
        && submissionMessage == old(submissionMessage)
    {
      if reply.Success? {
        submissionMessage := "Thank you! We will contact you soon.";
        contactEmail := "";
      } else {
        submissionError := OrElse(reply.message, "Something went wrong. Please try again.");
      }
      loading := false;
    }

    /** A whole submit whose insert answers `reply`. */
    method HandleContactSubmit(reply: Outcome) returns (sent: Option<string>)
      modifies this
      ensures showContactForm == old(showContactForm)
      ensures old(contactEmail) == "" ==> sent == None && unchanged(this)
      ensures old(contactEmail) != "" ==>
        && sent == Some(old(contactEmail))
        && !loading
        && (reply.Success? ==> submissionMessage == "Thank you! We will contact you soon."
                               && submissionError == "" && contactEmail == "")
        && (reply.Failure? ==> submissionMessage == ""
                               && submissionError == OrElse(reply.message, "Something went wrong. Please try again.")
                               && contactEmail == old(contactEmail))
    {
      sent := BeginSubmit();
      if sent.Some? {
        EndSubmit(reply);
      }
    }
  }
}
