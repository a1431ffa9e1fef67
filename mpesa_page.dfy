/**
 * The M-Pesa page: today's entries and their net flow, the weekly net flow,
 * and the state the create handler sets. `today` and `weekAgo` are the
 * `YYYY-MM-DD` strings the page derives from the clock.
 */
module MpesaPage {
  import opened Js
  import opened Folds
  import opened Ordering
  import opened Client

  /** `entry.netChange || 0`. */
  function NetTerm(e: MpesaEntry): real {
    OrZero(e.netChange)
  }

  /** `entry.date.startsWith(today)`. */
  function OnDay(today: string): MpesaEntry -> bool {
    (e: MpesaEntry) => StartsWith(e.date, today)
  }

  /** `entry.date >= weekAgo`, compared as strings. */
  function SinceDay(weekAgo: string): MpesaEntry -> bool {
    (e: MpesaEntry) => LexLe(weekAgo, e.date)
  }

  /** Lines 25-28. */
  function TodayEntries(entries: seq<MpesaEntry>, today: string): (r: seq<MpesaEntry>)
    ensures forall e :: e in r <==> e in entries && StartsWith(e.date, today)
  {
    FilterMembers(entries, OnDay(today));
    Filter(entries, OnDay(today))
  }

  /** Lines 30-32. */
  function TodayNetFlow(entries: seq<MpesaEntry>, today: string): real {
    Sum(TodayEntries(entries, today), NetTerm)
  }

  /** Lines 34-42. */
  function WeeklyNetFlow(entries: seq<MpesaEntry>, weekAgo: string): real {
    Sum(Filter(entries, SinceDay(weekAgo)), NetTerm)
  }

  /**
   * One more entry adds its net change to today's flow when it is dated today
   * and its net change is truthy, and nothing otherwise (a null net change counts as 0).
   */
  lemma TodayAddEntry(entries: seq<MpesaEntry>, today: string, e: MpesaEntry)
    ensures StartsWith(e.date, today) && TruthyNumber(e.netChange) ==>
              TodayNetFlow(entries + [e], today) == TodayNetFlow(entries, today) + e.netChange.value
    ensures !(StartsWith(e.date, today) && TruthyNumber(e.netChange)) ==>
              TodayNetFlow(entries + [e], today) == TodayNetFlow(entries, today)
  {
    FilterAppend(entries, [e], OnDay(today));
    assert [e][1..] == [];
    var last := Filter([e], OnDay(today));
    assert last == if StartsWith(e.date, today) then [e] else [];
    SumAppend(Filter(entries, OnDay(today)), last, NetTerm);
  }

  /** One more entry adds its net change to the weekly flow exactly when it is dated on or after `weekAgo`. */
  lemma WeeklyAddEntry(entries: seq<MpesaEntry>, weekAgo: string, e: MpesaEntry)
    ensures LexLe(weekAgo, e.date) ==> WeeklyNetFlow(entries + [e], weekAgo) == WeeklyNetFlow(entries, weekAgo) + OrZero(e.netChange)
    ensures !LexLe(weekAgo, e.date) ==> WeeklyNetFlow(entries + [e], weekAgo) == WeeklyNetFlow(entries, weekAgo)
  {
    FilterAppend(entries, [e], SinceDay(weekAgo));
    assert [e][1..] == [];
    var last := Filter([e], SinceDay(weekAgo));
    assert last == if LexLe(weekAgo, e.date) then [e] else [];
    SumAppend(Filter(entries, SinceDay(weekAgo)), last, NetTerm);
  }

  /** A string that starts with `p` is at least `p` in string order. */
  lemma {:induction false} PrefixAtLeast(p: string, s: string)
    requires StartsWith(s, p)
    ensures LexLe(p, s)
  {
    if p != [] {
      assert s[0] == p[0];
      assert s[1..][..|p| - 1] == p[1..];
      PrefixAtLeast(p[1..], s[1..]);
    }
  }

  /** `a <= b` and `b` a prefix of `s` give `a <= s` in string order. */
  lemma {:induction false} AtLeastPrefix(a: string, b: string, s: string)
    requires LexLe(a, b) && StartsWith(s, b)
    ensures LexLe(a, s)
  {
    PrefixAtLeast(b, s);
    LexLeTransitive(a, b, s);
  }

  /**
   * Every entry counted today is counted in the weekly flow when `weekAgo`
   * comes no later than `today`, whatever the time part of its date.
   */
  lemma TodayWithinWeek(entries: seq<MpesaEntry>, today: string, weekAgo: string)
    requires LexLe(weekAgo, today)
    ensures forall e :: e in TodayEntries(entries, today) ==> e in Filter(entries, SinceDay(weekAgo))
  {
    FilterMembers(entries, SinceDay(weekAgo));
    forall e | e in TodayEntries(entries, today) ensures e in Filter(entries, SinceDay(weekAgo)) {
      AtLeastPrefix(weekAgo, today, e.date);
    }
  }

  /** The flows do not depend on the order the entries are listed in. */
  lemma FlowsOrder(a: seq<MpesaEntry>, b: seq<MpesaEntry>, today: string, weekAgo: string)
    requires multiset(a) == multiset(b)
    ensures TodayNetFlow(a, today) == TodayNetFlow(b, today)
    ensures WeeklyNetFlow(a, weekAgo) == WeeklyNetFlow(b, weekAgo)
  {
    FilterSumPermutation(a, b, OnDay(today), NetTerm);
    FilterSumPermutation(a, b, SinceDay(weekAgo), NetTerm);
  }

  /** The page state the create handler sets. */
  class PageState {
    var showStartForm: bool
    var showEndForm: bool
    var isSubmitting: bool

    constructor()
      ensures !showStartForm && !showEndForm && !isSubmitting
    {
      showStartForm := false;
      showEndForm := false;
      isSubmitting := false;
    }

    /**
     * Lines 44-55: after a successful create both forms close; after a failed
     * one they stay as they were and an alert is raised; the submitting flag
     * ends cleared either way.
     */
    method HandleCreateEntry(requestSucceeds: bool) returns (alert: Option<string>)
      modifies this
      ensures requestSucceeds ==> !showStartForm && !showEndForm && alert == None
      ensures !requestSucceeds ==>
                showStartForm == old(showStartForm) && showEndForm == old(showEndForm) && alert == Some("Failed to create entry")
      ensures !isSubmitting
    {
      isSubmitting := true;
      alert := None;
      if requestSucceeds {
        showStartForm := false;
        showEndForm := false;
      } else {
        alert := Some("Failed to create entry");
      }
      isSubmitting := false;
    }
  }
}
