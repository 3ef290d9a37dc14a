/** The tracker's value-level state transformations: the task list, favourite tips,
    writing tasks, the capped snapshot history, the export payload and the field-wise
    import merge, and the countdown timer's tick. Each is a plain list or record
    transformation that the component hands to a state setter. */
module Progress {
  import opened Bands

  datatype Option<T> = None | Some(value: T)

  /* ---------------------------------------------------------------------------
     Generic list transformations (Array.prototype.filter and map)
     --------------------------------------------------------------------------- */

  /** The elements of s that satisfy keep, in their original order. */
  function Filter<T(==,!new)>(s: seq<T>, keep: T -> bool): (r: seq<T>)
    ensures |r| <= |s|
    ensures forall x :: x in r <==> x in s && keep(x)
  {
    if s == [] then []
    else
      assert forall x :: x in s <==> x == s[0] || x in s[1..];
      (if keep(s[0]) then [s[0]] else []) + Filter(s[1..], keep)
  }

  /** Filtering distributes over concatenation: the kept elements stay in order. */
  lemma {:induction false} FilterAppend<T(!new)>(a: seq<T>, b: seq<T>, keep: T -> bool)
    ensures Filter(a + b, keep) == Filter(a, keep) + Filter(b, keep)
  {
    if a == [] {
      assert a + b == b;
    } else {
      assert (a + b)[0] == a[0];
      assert (a + b)[1..] == a[1..] + b;
      FilterAppend(a[1..], b, keep);
    }
  }

  /** Filtering keeps a list whose every element is kept. */
  lemma {:induction false} FilterKeepsAll<T(!new)>(s: seq<T>, keep: T -> bool)
    requires forall i :: 0 <= i < |s| ==> keep(s[i])
    ensures Filter(s, keep) == s
  {
    if s != [] {
      FilterKeepsAll(s[1..], keep);
    }
  }

  /** Filtering a list without duplicates yields one without duplicates. */
  lemma {:induction false} FilterDistinct<T(!new)>(s: seq<T>, keep: T -> bool)
    requires Distinct(s)
    ensures Distinct(Filter(s, keep))
  {
    if s != [] {
      assert Distinct(s[1..]) by {
        forall i, j | 0 <= i < j < |s[1..]| ensures s[1..][i] != s[1..][j] {
          assert s[1..][i] == s[i + 1] && s[1..][j] == s[j + 1];
        }
      }
      FilterDistinct(s[1..], keep);
      assert s[0] !in s[1..] by {
        forall k | 0 <= k < |s[1..]| ensures s[1..][k] != s[0] {
          assert s[1..][k] == s[k + 1];
        }
      }
      var rest := Filter(s[1..], keep);
      var r := (if keep(s[0]) then [s[0]] else []) + rest;
      forall i, j | 0 <= i < j < |r| ensures r[i] != r[j] {
        if keep(s[0]) && i == 0 {
          assert r[j] == rest[j - 1] && r[j] in rest;
        }
      }
    }
  }

  /** f applied to every element, in place. */
  function MapSeq<T>(s: seq<T>, f: T -> T): (r: seq<T>)
    ensures |r| == |s|
    ensures forall i :: 0 <= i < |s| ==> r[i] == f(s[i])
  {
    if s == [] then [] else [f(s[0])] + MapSeq(s[1..], f)
  }

  /* ---------------------------------------------------------------------------
     Text input: String.prototype.trim
     --------------------------------------------------------------------------- */

  /** The characters that ECMAScript's trim removes: WhiteSpace (tab, vertical tab, form
      feed, space, no-break space, the byte order mark and the space separators of
      Unicode's category Zs) and LineTerminator (line feed, carriage return, line and
      paragraph separator). '\t' to '\r' covers tab, line feed, vertical tab, form feed
      and carriage return. */
  predicate IsSpace(ch: char)
  {
    || ('\t' <= ch <= '\r') || ch == ' ' || ch == '\U{00A0}' || ch == '\U{1680}'
    || ('\U{2000}' <= ch <= '\U{200A}') || ch == '\U{2028}' || ch == '\U{2029}'
    || ch == '\U{202F}' || ch == '\U{205F}' || ch == '\U{3000}' || ch == '\U{FEFF}'
  }

  predicate Blank(s: string)
  {
    AllIn(s, IsSpace)
  }

  /** Every character of s is in the kind. */
  predicate AllIn(s: string, kind: char -> bool)
  {
    forall i :: 0 <= i < |s| ==> kind(s[i])
  }

  /** The length of the leading run of characters of the kind. */
  function LeadingRun(s: string, kind: char -> bool): (n: nat)
    ensures n <= |s|
    ensures forall i :: 0 <= i < n ==> kind(s[i])
    ensures n < |s| ==> !kind(s[n])
  {
    if s == [] || !kind(s[0]) then 0
    else
      var n := LeadingRun(s[1..], kind);
      assert forall i :: 1 <= i < n + 1 ==> s[i] == s[1..][i - 1];
      n + 1
  }

  /** Where the trailing run of characters of the kind starts. */
  function TrailingRun(s: string, kind: char -> bool): (m: nat)
    ensures m <= |s|
    ensures forall i :: m <= i < |s| ==> kind(s[i])
    ensures m > 0 ==> !kind(s[m - 1])
  {
    if s == [] || !kind(s[|s| - 1]) then |s|
    else
      var m := TrailingRun(s[..|s| - 1], kind);
      assert forall i :: m <= i < |s| - 1 ==> s[i] == s[..|s| - 1][i];
      m
  }

  /** The input with leading and trailing white space removed: empty exactly when the
      input is blank, otherwise starting and ending with a visible character, and what
      was cut off on either side is white space. */
  function Trim(s: string): (r: string)
    ensures r == [] <==> Blank(s)
    ensures r != [] ==> !IsSpace(r[0]) && !IsSpace(r[|r| - 1])
    ensures exists a :: 0 <= a <= |s| - |r| && r == s[a..a + |r|] && Blank(s[..a]) && Blank(s[a + |r|..])
  {
    var a := LeadingRun(s, IsSpace);
    if a == |s| then
      assert Blank(s[..a]) && Blank(s[a..]);
      []
    else
      var b := TrailingRun(s, IsSpace);
      assert a < b;
      var r := s[a..b];
      assert r[0] == s[a] && r[|r| - 1] == s[b - 1];
      assert Blank(s[..a]) && Blank(s[b..]);
      assert !Blank(s) by { assert !IsSpace(s[a]); }
      r
  }

  /** Trimming twice is trimming once. */
  lemma TrimIdempotent(s: string)
    ensures Trim(Trim(s)) == Trim(s)
  {
    var r := Trim(s);
    if r != [] {
      assert LeadingRun(r, IsSpace) == 0;
      assert TrailingRun(r, IsSpace) == |r|;
      assert r[0..|r|] == r;
    }
  }

  /* ---------------------------------------------------------------------------
     Daily tasks
     --------------------------------------------------------------------------- */

  datatype Task = Task(id: int, text: string, done: bool, createdAt: string)

  /** addTask: blank input adds nothing; otherwise one new, not yet done task holding
      the trimmed text goes in front. The id and timestamp are supplied by the caller. */
  function AddedTask(ts: seq<Task>, input: string, id: int, createdAt: string): (r: seq<Task>)
    ensures Blank(input) ==> r == ts
    ensures !Blank(input) ==> r == [Task(id, Trim(input), false, createdAt)] + ts
  {
    var text := Trim(input);
    if text == [] then ts else [Task(id, text, false, createdAt)] + ts
  }

  /** toggleTask: same length and order; only tasks with the id flip their done flag. */
  function Toggled(ts: seq<Task>, id: int): (r: seq<Task>)
    ensures |r| == |ts|
    ensures forall i :: 0 <= i < |ts| ==>
      r[i].id == ts[i].id && r[i].text == ts[i].text && r[i].createdAt == ts[i].createdAt &&
      r[i].done == (ts[i].done != (ts[i].id == id))
  {
    MapSeq(ts, (t: Task) => if t.id == id then t.(done := !t.done) else t)
  }

  /** Toggling the same id twice restores the list. */
  lemma ToggleTwice(ts: seq<Task>, id: int)
    ensures Toggled(Toggled(ts, id), id) == ts
  {
    var r := Toggled(Toggled(ts, id), id);
    assert |r| == |ts|;
    forall i | 0 <= i < |ts| ensures r[i] == ts[i] {
    }
  }

  /** removeTask: exactly the tasks with that id go. */
  function Removed(ts: seq<Task>, id: int): (r: seq<Task>)
    ensures forall t :: t in r <==> t in ts && t.id != id
  {
    Filter(ts, (t: Task) => t.id != id)
  }

  /** Removal preserves the relative order of what remains: it acts on the two halves
      of a list separately, and leaves a list without that id as it is. */
  lemma RemovedPreservesOrder(a: seq<Task>, b: seq<Task>, id: int)
    ensures Removed(a + b, id) == Removed(a, id) + Removed(b, id)
    ensures (forall i :: 0 <= i < |a| ==> a[i].id != id) ==> Removed(a, id) == a
  {
    FilterAppend(a, b, (t: Task) => t.id != id);
    if forall i :: 0 <= i < |a| ==> a[i].id != id {
      FilterKeepsAll(a, (t: Task) => t.id != id);
    }
  }

  /* ---------------------------------------------------------------------------
     Favourite tips
     --------------------------------------------------------------------------- */

  /** markTipFav: an id already among the favourites is removed (every copy), any other
      id is appended. */
  function FavToggled(favs: seq<int>, id: int): (r: seq<int>)
    ensures id in r <==> id !in favs
    ensures forall x :: x != id ==> (x in r <==> x in favs)
  {
    if id in favs then Filter(favs, (x: int) => x != id) else favs + [id]
  }

  /** Marking keeps the favourites free of duplicates. */
  lemma FavKeepsDistinct(favs: seq<int>, id: int)
    requires Distinct(favs)
    ensures Distinct(FavToggled(favs, id))
  {
    if id in favs {
      FilterDistinct(favs, (x: int) => x != id);
    } else {
      var r := favs + [id];
      forall i, j | 0 <= i < j < |r| ensures r[i] != r[j] {
        if j == |favs| {
          assert r[i] == favs[i];
        }
      }
    }
  }

  /** Marking a new favourite and then marking it again restores the list. */
  lemma FavTwiceRestores(favs: seq<int>, id: int)
    requires id !in favs
    ensures FavToggled(FavToggled(favs, id), id) == favs
  {
    var keep := (x: int) => x != id;
    FilterAppend(favs, [id], keep);
    FilterKeepsAll(favs, keep);
    assert Filter([id], keep) == [];
  }

  /* ---------------------------------------------------------------------------
     Writing tasks
     --------------------------------------------------------------------------- */

  datatype WritingTask = WritingTask(id: int, prompt: string, response: string, createdAt: string)

  /** addWritingTask: blank input adds nothing; otherwise a task with the trimmed prompt
      and an empty response goes in front. */
  function AddedWritingTask(wt: seq<WritingTask>, input: string, id: int, createdAt: string): (r: seq<WritingTask>)
    ensures Blank(input) ==> r == wt
    ensures !Blank(input) ==> r == [WritingTask(id, Trim(input), "", createdAt)] + wt
  {
    var prompt := Trim(input);
    if prompt == [] then wt else [WritingTask(id, prompt, "", createdAt)] + wt
  }

  /** updateWritingResponse: every task with the id gets the new response; nothing else
      changes. */
  function UpdatedResponse(wt: seq<WritingTask>, id: int, response: string): (r: seq<WritingTask>)
    ensures |r| == |wt|
    ensures forall i :: 0 <= i < |wt| ==>
      r[i].id == wt[i].id && r[i].prompt == wt[i].prompt && r[i].createdAt == wt[i].createdAt &&
      r[i].response == (if wt[i].id == id then response else wt[i].response)
  {
    MapSeq(wt, (t: WritingTask) => if t.id == id then t.(response := response) else t)
  }

  /** Of two responses saved for the same task the later one is kept. */
  lemma LastResponseWins(wt: seq<WritingTask>, id: int, first: string, second: string)
    ensures UpdatedResponse(UpdatedResponse(wt, id, first), id, second) == UpdatedResponse(wt, id, second)
  {
    var a := UpdatedResponse(UpdatedResponse(wt, id, first), id, second);
    var b := UpdatedResponse(wt, id, second);
    assert |a| == |b|;
    forall i | 0 <= i < |a| ensures a[i] == b[i] {
    }
  }

  /* ---------------------------------------------------------------------------
     Snapshots and history
     --------------------------------------------------------------------------- */

  /** A frozen record of the four skill bands (quarters) and the overall band
      (sixteenths), with its calendar date. */
  datatype Snapshot = Snapshot(date: string, speaking: int, listening: int, reading: int, writing: int, overall: int)

  const HistoryCap := 365

  /** The snapshot of the current assessment on the given date. */
  function TakeSnapshot(a: Assessment, date: string): (snap: Snapshot)
    ensures snap.date == date && snap.overall <= MaxSixteenths
  {
    Snapshot(date, SkillBand(Speaking, a), SkillBand(Listening, a), SkillBand(Reading, a),
             SkillBand(Writing, a), Overall(a))
  }

  /** A snapshot of a well-formed assessment holds four bands in [0, 9] and their exact
      mean as the overall band. */
  lemma SnapshotInRange(a: Assessment, date: string)
    requires WellFormed(a)
    ensures var snap := TakeSnapshot(a, date);
      0 <= snap.speaking <= MaxQuarters && 0 <= snap.listening <= MaxQuarters
      && 0 <= snap.reading <= MaxQuarters && 0 <= snap.writing <= MaxQuarters
      && snap.overall == snap.speaking + snap.listening + snap.reading + snap.writing
  {
    OverallCapUnreachable(a);
    BandInRange(Speaking, a);
    BandInRange(Listening, a);
    BandInRange(Reading, a);
    BandInRange(Writing, a);
  }

  /** The first n elements, or all of them when there are fewer (Array.prototype.slice(0, n)). */
  function Prefix<T>(s: seq<T>, n: nat): (r: seq<T>)
    ensures |r| == if |s| < n then |s| else n
    ensures forall i :: 0 <= i < |r| ==> r[i] == s[i]
  {
    if |s| < n then s else s[..n]
  }

  /** saveAssessmentSnapshot: the snapshot goes in front and the list is cut to 365; on
      overflow only the oldest entry is lost. */
  function SavedHistory(h: seq<Snapshot>, snap: Snapshot): (r: seq<Snapshot>)
    ensures |r| == if |h| < HistoryCap then |h| + 1 else HistoryCap
    ensures r[0] == snap
    ensures r[1..] == Prefix(h, HistoryCap - 1)
  {
    Prefix([snap] + h, HistoryCap)
  }

  /** Two snapshots saved on the same date are both kept, newest first. */
  lemma SameDateBothKept(h: seq<Snapshot>, first: Snapshot, second: Snapshot)
    requires first.date == second.date
    ensures var r := SavedHistory(SavedHistory(h, first), second);
      |r| >= 2 && r[0] == second && r[1] == first && r[0].date == r[1].date
  {
    var r1 := SavedHistory(h, first);
    var r := SavedHistory(r1, second);
    assert r[1..][0] == Prefix(r1, HistoryCap - 1)[0];
  }

  /** Saving a sequence of snapshots one after another. */
  function SaveAll(h: seq<Snapshot>, snaps: seq<Snapshot>): seq<Snapshot>
    decreases |snaps|
  {
    if snaps == [] then h else SaveAll(SavedHistory(h, snaps[0]), snaps[1..])
  }

  function Reverse<T>(s: seq<T>): (r: seq<T>)
    ensures |r| == |s|
  {
    if s == [] then [] else Reverse(s[1..]) + [s[0]]
  }

  lemma PrefixOfPrefix<T>(a: seq<T>, b: seq<T>, n: nat)
    ensures Prefix(a + Prefix(b, n), n) == Prefix(a + b, n)
  {
    var l, r := Prefix(a + Prefix(b, n), n), Prefix(a + b, n);
    assert |l| == |r|;
    forall i | 0 <= i < |l| ensures l[i] == r[i] {
      if i >= |a| {
        assert l[i] == Prefix(b, n)[i - |a|];
      }
    }
  }

  /** The history is a bounded FIFO: starting from at most 365 entries, or from a longer
      imported history once something is saved, a run of saves leaves the 365 most
      recent entries, most recent first. */
  lemma {:induction false} HistoryIsMostRecentFirst(h: seq<Snapshot>, snaps: seq<Snapshot>)
    requires |h| <= HistoryCap || snaps != []
    ensures SaveAll(h, snaps) == Prefix(Reverse(snaps) + h, HistoryCap)
    decreases |snaps|
  {
    if snaps == [] {
      assert Reverse(snaps) + h == h;
      assert h[..|h|] == h;
    } else {
      var x, rest := snaps[0], snaps[1..];
      var h1 := SavedHistory(h, x);
      HistoryIsMostRecentFirst(h1, rest);
      SaveStep(h, x, rest, Reverse(rest));
    }
  }

  /** One save, then the rest: the rest's snapshots, reversed, in front of the first
      save's result is the same cut as all of them in front of the old history. */
  lemma SaveStep(h: seq<Snapshot>, x: Snapshot, rest: seq<Snapshot>, rev: seq<Snapshot>)
    requires rev == Reverse(rest)
    ensures SaveAll(h, [x] + rest) == SaveAll(SavedHistory(h, x), rest)
    ensures Prefix(rev + SavedHistory(h, x), HistoryCap) == Prefix(Reverse([x] + rest) + h, HistoryCap)
  {
    var snaps := [x] + rest;
    assert snaps[0] == x && snaps[1..] == rest;
    assert SavedHistory(h, x) == Prefix([x] + h, HistoryCap);
    PrefixOfPrefix(rev, [x] + h, HistoryCap);
    assert Reverse(snaps) == rev + [x];
    assert rev + ([x] + h) == Reverse(snaps) + h;
  }

  /* ---------------------------------------------------------------------------
     Export payload and import merge
     --------------------------------------------------------------------------- */

  /** The six fields that are persisted, exported and imported. The target band is in
      quarters and the favourites are tip ids. */
  datatype Payload = Payload(name: string, targetBand: int, tasks: seq<Task>, assessment: Assessment,
                             history: seq<Snapshot>, favTips: seq<int>)

  /** An already-parsed document: None for a field that is absent or null. */
  datatype Document = Document(name: Option<string>, targetBand: Option<int>, tasks: Option<seq<Task>>,
                               assessment: Option<Assessment>, history: Option<seq<Snapshot>>,
                               favTips: Option<seq<int>>)

  /** The state after clearAll, and the fallback of every stored field: no name, target
      8.5, no tasks, every rating 6, no history, no favourites. */
  function DefaultPayload(): Payload
  {
    Payload("", 34, [], DefaultAssessment(), [], [])
  }

  /** exportProgress: every field present. */
  function Export(p: Payload): Document
  {
    Document(Some(p.name), Some(p.targetBand), Some(p.tasks), Some(p.assessment), Some(p.history), Some(p.favTips))
  }

  /** A document field is truthy: present, and for a string not empty, for a number
      not zero. Lists and records are truthy whenever present, even when empty. */
  predicate NameTruthy(d: Document) { d.name.Some? && d.name.value != "" }

  predicate TargetTruthy(d: Document) { d.targetBand.Some? && d.targetBand.value != 0 }

  /** importProgress: None is text that does not parse or parses to null and changes nothing;
      otherwise each truthy field replaces the current one and every other field stays. */
  function Merge(p: Payload, doc: Option<Document>): (r: Payload)
    ensures doc.None? ==> r == p
    ensures r.name == p.name || (doc.Some? && doc.value.name == Some(r.name) && r.name != "")
    ensures r.targetBand == p.targetBand || (doc.Some? && doc.value.targetBand == Some(r.targetBand) && r.targetBand != 0)
    ensures r.tasks == p.tasks || (doc.Some? && doc.value.tasks == Some(r.tasks))
    ensures r.assessment == p.assessment || (doc.Some? && doc.value.assessment == Some(r.assessment))
    ensures r.history == p.history || (doc.Some? && doc.value.history == Some(r.history))
    ensures r.favTips == p.favTips || (doc.Some? && doc.value.favTips == Some(r.favTips))
  {
    match doc
    case None => p
    case Some(d) =>
      Payload(
        if NameTruthy(d) then d.name.value else p.name,
        if TargetTruthy(d) then d.targetBand.value else p.targetBand,
        if d.tasks.Some? then d.tasks.value else p.tasks,
        if d.assessment.Some? then d.assessment.value else p.assessment,
        if d.history.Some? then d.history.value else p.history,
        if d.favTips.Some? then d.favTips.value else p.favTips)
  }

  /** Every truthy field of a parsed document is applied (with Merge's own contract,
      a field changes if and only if the document carries a different truthy value). */
  lemma ImportAppliesPresentFields(p: Payload, d: Document)
    ensures var r := Merge(p, Some(d));
      (NameTruthy(d) ==> r.name == d.name.value) && (TargetTruthy(d) ==> r.targetBand == d.targetBand.value)
      && (d.tasks.Some? ==> r.tasks == d.tasks.value) && (d.assessment.Some? ==> r.assessment == d.assessment.value)
      && (d.history.Some? ==> r.history == d.history.value) && (d.favTips.Some? ==> r.favTips == d.favTips.value)
    ensures var r := Merge(p, Some(d));
      (!NameTruthy(d) ==> r.name == p.name) && (!TargetTruthy(d) ==> r.targetBand == p.targetBand)
      && (d.tasks.None? ==> r.tasks == p.tasks) && (d.assessment.None? ==> r.assessment == p.assessment)
      && (d.history.None? ==> r.history == p.history) && (d.favTips.None? ==> r.favTips == p.favTips)
  {
  }

  /** Exporting a state and importing it into a freshly defaulted one reproduces it,
      provided the target band is not 0 (a falsy number is never imported). */
  lemma ExportImportRoundTrip(p: Payload)
    requires p.targetBand != 0
    ensures Merge(DefaultPayload(), Some(Export(p))) == p
  {
  }

  /** An exported empty name is falsy, so importing it keeps the current name. */
  lemma EmptyNameNotImported(p: Payload, current: Payload)
    requires p.name == ""
    ensures Merge(current, Some(Export(p))).name == current.name
  {
  }

  /** Importing the same document twice is importing it once. */
  lemma ImportIdempotent(p: Payload, doc: Option<Document>)
    ensures Merge(Merge(p, doc), doc) == Merge(p, doc)
  {
  }

  /* ---------------------------------------------------------------------------
     Countdown timer
     --------------------------------------------------------------------------- */

  /** One tick of the countdown: the seconds left afterwards and whether the timer keeps
      running. At one second or less the timer reaches 0 and stops. */
  function Tick(s: int): (r: (int, bool))
    ensures r.0 == if s - 1 > 0 then s - 1 else 0
    ensures r.1 <==> r.0 > 0
  {
    if s <= 1 then (0, false) else (s - 1, true)
  }

  /** Up to n ticks, stopping early once the timer stops. */
  function Countdown(s: int, n: nat): (int, bool)
  {
    if n == 0 then (s, true)
    else
      var (left, running) := Tick(s);
      if running then Countdown(left, n - 1) else (left, false)
  }

  /** Started with s > 0 seconds the timer runs for exactly s ticks: before that the
      seconds go down by one per tick, afterwards it rests at 0, stopped. */
  lemma {:induction false} CountdownFrom(s: int, n: nat)
    requires s >= 1
    ensures Countdown(s, n) == if n < s then (s - n, true) else (0, false)
  {
    if n > 0 && s > 1 {
      CountdownFrom(s - 1, n - 1);
    }
  }
}
