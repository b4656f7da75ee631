/** `audit_show_page`: reading the log backwards, a page at a time, while every read appends to it. */
module Paging {
  import opened Prelude
  import opened Audit

  datatype Page = Page(entries: seq<Line>, next: Option<nat>)

  /** `read_all` parses every line or fails. */
  predicate Parses(file: seq<Line>) { forall i :: 0 <= i < |file| ==> file[i].Entry? }

  predicate UpTo(line: Line, upper: nat) { line.Entry? && line.event.seqNo <= upper }

  function KeepUpTo(upper: nat): Line -> bool { line => UpTo(line, upper) }

  function Upper(file: seq<Line>, before: Option<nat>): nat
    requires Parses(file)
  {
    var head := if file == [] then 0 else file[|file| - 1].event.seqNo;
    if before.Some? && before.value < head then before.value else head
  }

  function Last<T>(s: seq<T>, n: nat): seq<T> { if |s| > n then s[|s| - n..] else s }

  /** Older entries remain before the page. */
  predicate MoreBefore(file: seq<Line>, first: nat) {
    first > 1 && exists i :: 0 <= i < |file| && file[i].Entry? && file[i].event.seqNo < first
  }

  /** The page computed from the snapshot taken before the read's own entry is appended. */
  function ShowPage(file: seq<Line>, tail: nat, before: Option<nat>): Page
    requires Parses(file)
  {
    var upper := Upper(file, before);
    var page := Last(Filter(file, KeepUpTo(upper)), tail);
    if page == [] then Page(page, None)
    else
      assert page[0] in file;
      var first := page[0].event.seqNo;
      Page(page, if MoreBefore(file, first) then Some(first - 1) else None)
  }

  predicate InOrder(file: seq<Line>) { forall i :: 0 <= i < |file| ==> Numbered(file, i) }

  lemma {:induction false} EligibleIsPrefix(file: seq<Line>, upper: nat, from: nat)
    requires from <= |file|
    requires forall i :: from <= i < |file| ==> Numbered(file, i)
    ensures Filter(file[from..], KeepUpTo(upper))
         == if from <= upper <= |file| then file[from..upper] else if upper < from then [] else file[from..]
    decreases |file| - from
  {
    if from < |file| {
      EligibleIsPrefix(file, upper, from + 1);
      assert file[from..][0] == file[from] && file[from..][1..] == file[from + 1..];
      assert Numbered(file, from);
    }
  }

  lemma UpperIs(file: seq<Line>, before: Option<nat>)
    requires InOrder(file) && Parses(file)
    ensures Upper(file, before) == if before.Some? && before.value < |file| then before.value else |file|
  {
    if file != [] { assert Numbered(file, |file| - 1); }
  }

  lemma MoreBeforeIs(file: seq<Line>, start: nat)
    requires InOrder(file) && start < |file|
    ensures file[start].Entry? && file[start].event.seqNo == start + 1
    ensures MoreBefore(file, start + 1) <==> start > 0
  {
    assert Numbered(file, start) && Numbered(file, 0);
  }

  /** On a numbered log a page is the `tail` entries ending at the cursor, and the next cursor is the
      entry just before the page, or absent when the page starts at entry 1. */
  lemma PageIsASlice(file: seq<Line>, tail: nat, before: Option<nat>)
    requires InOrder(file) && Parses(file) && tail >= 1
    requires before.Some? ==> 1 <= before.value
    ensures var upper := if before.Some? && before.value < |file| then before.value else |file|;
            var start := if upper > tail then upper - tail else 0;
            ShowPage(file, tail, before) == Page(file[start..upper], if start == 0 then None else Some(start))
  {
    var upper := if before.Some? && before.value < |file| then before.value else |file|;
    var start := if upper > tail then upper - tail else 0;
    UpperIs(file, before);
    EligibleIsPrefix(file, upper, 0);
    assert file[0..] == file && file[0..upper] == file[..upper];
    hide Filter;
    hide Upper;
    hide MoreBefore;
    hide Numbered;
    assert Last(file[..upper], tail) == file[start..upper];
    if file == [] {
    } else {
      MoreBeforeIs(file, start);
      assert file[start..upper][0] == file[start];
    }
  }

  /** Follow `next_before_seq` through successive reads; read `i` sees the log `logs[i]`. The result is the
      concatenation of the pages, oldest first, and whether the cursor ran out. */
  function Follow(logs: seq<seq<Line>>, tails: seq<nat>, before: Option<nat>): (seq<Line>, bool)
    requires |logs| == |tails|
    requires forall i :: 0 <= i < |logs| ==> Parses(logs[i])
    decreases |logs|
  {
    if logs == [] then ([], false)
    else
      var page := ShowPage(logs[0], tails[0], before);
      if page.next.None? then (page.entries, true)
      else
        var rest := Follow(logs[1..], tails[1..], page.next);
        (rest.0 + page.entries, rest.1)
  }

  /** Each log extends the one before it: reads, and anybody else, only append. */
  predicate Growing(logs: seq<seq<Line>>) {
    && (forall i :: 0 <= i < |logs| ==> InOrder(logs[i]))
    && (forall i, j :: 0 <= i < j < |logs| ==> logs[i] <= logs[j])
  }

  lemma {:induction false} FollowFrom(logs: seq<seq<Line>>, tails: seq<nat>, cursor: nat)
    requires |logs| == |tails| && Growing(logs) && (forall i :: 0 <= i < |tails| ==> tails[i] >= 1)
    requires logs != [] && 1 <= cursor <= |logs[0]| && cursor <= |logs|
    requires forall i :: 0 <= i < |logs| ==> Parses(logs[i])
    ensures Follow(logs, tails, Some(cursor)) == (logs[0][..cursor], true)
    decreases cursor
  {
    hide ShowPage;
    PageIsASlice(logs[0], tails[0], Some(cursor));
    var start := if cursor > tails[0] then cursor - tails[0] else 0;
    if start == 0 {
    } else {
      assert logs[1..][0] == logs[1];
      assert logs[0] <= logs[1];
      assert Growing(logs[1..]);
      FollowFrom(logs[1..], tails[1..], start);
      assert logs[1][..start] == logs[0][..start];
      assert logs[0][..start] + logs[0][start..cursor] == logs[0][..cursor];
    }
  }

  /** Starting without a cursor and using any page sizes, the cursor runs out after at most as many
      reads as the first log had entries, and the pages are exactly those entries, once each, in order,
      although every read appends to the log. */
  lemma PagingReturnsTheFirstSnapshot(logs: seq<seq<Line>>, tails: seq<nat>)
    requires |logs| == |tails| && Growing(logs) && (forall i :: 0 <= i < |tails| ==> tails[i] >= 1)
    requires logs != [] && |logs[0]| <= |logs|
    requires forall i :: 0 <= i < |logs| ==> Parses(logs[i])
    ensures Follow(logs, tails, None) == (logs[0], true)
  {
    hide ShowPage;
    PageIsASlice(logs[0], tails[0], None);
    if logs[0] != [] {
      PageIsASlice(logs[0], tails[0], Some(|logs[0]|));
      FollowFrom(logs, tails, |logs[0]|);
    }
    assert logs[0][..|logs[0]|] == logs[0];
  }
}
