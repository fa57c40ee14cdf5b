/** Transcript reconciliation: passes over a growing rollout that feed the spool and then move a
    cursor, in a separate transaction. */
module Watcher {
  import opened Spool
  import opened Rollout
  import opened Seqs

  /** How transcripts parse, how an event id is derived, how an event is rendered, and whether its source
      system, type, role and metadata pass validation. */
  datatype WatchEnv = WatchEnv(source: Source, derive: Captured -> EventId, body: Captured -> string,
                               sound: Captured -> bool)

  const SOURCE_SYSTEM := "codex"

  /** An event on its way to the spool; adapters may already have named it. */
  datatype Named = Named(eventId: EventId, captured: Captured)

  function Unnamed(cs: seq<Captured>): (ns: seq<Named>)
  {
    seq(|cs|, i requires 0 <= i < |cs| => Named("", cs[i]))
  }

  function NameOf(env: WatchEnv, n: Named): Named
  {
    if |n.eventId| >= 8 then n else n.(eventId := env.derive(n.captured))
  }

  function WithIds(env: WatchEnv, ns: seq<Named>): (r: seq<Named>)
  {
    seq(|ns|, i requires 0 <= i < |ns| => NameOf(env, ns[i]))
  }

  predicate Passes(env: WatchEnv, n: Named)
  {
    |n.eventId| >= 8 && env.sound(n.captured)
  }

  /** The events that pass validation, ready for the spool. */
  function Valid(env: WatchEnv, ns: seq<Named>): seq<Event>
  {
    if ns == [] then []
    else
      var last := ns[|ns| - 1];
      Valid(env, ns[..|ns| - 1])
      + (if Passes(env, last) then [Event(last.eventId, env.body(last.captured))] else [])
  }

  function ToSpool(env: WatchEnv, cs: seq<Captured>): seq<Event>
  {
    Valid(env, WithIds(env, Unnamed(cs)))
  }

  predicate Enters(env: WatchEnv, c: Captured)
  {
    Passes(env, Named(env.derive(c), c))
  }

  /** The ids a list of captured events enters the spool with. */
  function SpoolIds(env: WatchEnv, cs: seq<Captured>): set<EventId>
  {
    set c | c in cs && Enters(env, c) :: env.derive(c)
  }

  // ---- one pass in place ----

  method EnsureEventIds(env: WatchEnv, events: array<Named>)
    modifies events
    ensures events[..] == WithIds(env, old(events[..]))
  {
    ghost var before := events[..];
    for i := 0 to events.Length
      invariant forall j :: 0 <= j < i ==> events[j] == NameOf(env, before[j])
      invariant forall j :: i <= j < events.Length ==> events[j] == before[j]
    {
      if |events[i].eventId| < 8 {
        events[i] := events[i].(eventId := env.derive(events[i].captured));
      }
    }
  }

  method RetainValid(env: WatchEnv, ns: seq<Named>) returns (events: seq<Event>)
    ensures events == Valid(env, ns)
  {
    events := [];
    for i := 0 to |ns|
      invariant events == Valid(env, ns[..i])
    {
      assert ns[..i + 1][..i] == ns[..i];
      if Passes(env, ns[i]) {
        events := events + [Event(ns[i].eventId, env.body(ns[i].captured))];
      }
    }
    assert ns[..|ns|] == ns;
  }

  method Tally(outcomes: seq<EnqueueOutcome>) returns (inserted: nat, duplicates: nat)
    ensures inserted == CountInserted(outcomes) && inserted + duplicates == |outcomes|
  {
    inserted, duplicates := 0, 0;
    for i := 0 to |outcomes|
      invariant inserted == CountInserted(outcomes[..i]) && inserted + duplicates == i
    {
      assert outcomes[..i + 1][..i] == outcomes[..i];
      if outcomes[i] == Inserted {
        inserted := inserted + 1;
      } else {
        duplicates := duplicates + 1;
      }
    }
    assert outcomes[..|outcomes|] == outcomes;
  }

  /** The parsed events, named and validated. */
  method Prepare(env: WatchEnv, captured: seq<Captured>) returns (events: seq<Event>)
    ensures events == ToSpool(env, captured)
  {
    var named := new Named[|captured|](i requires 0 <= i < |captured| => Named("", captured[i]));
    assert named[..] == Unnamed(captured);
    EnsureEventIds(env, named);
    events := RetainValid(env, named[..]);
  }

  datatype FileState = FileState(table: Table, cursor: int)

  /** What one file's turn does to the spool and its cursor. */
  function FileTurn(env: WatchEnv, s: FileState, file: Bytes, now: int): FileState
  {
    if PassOffset(file, s.cursor) == s.cursor then s
    else
      FileState(InsertAll(s.table, ToSpool(env, PassEvents(env.source, file, s.cursor)), now),
                PassOffset(file, s.cursor))
  }

  function CursorOf(cursors: map<(string, string), int>, path: string): int
  {
    if (SOURCE_SYSTEM, path) in cursors then cursors[(SOURCE_SYSTEM, path)] else 0
  }

  method WatchFile(env: WatchEnv, store: Store, path: string, file: Bytes, now: int) returns (inserted: nat, duplicates: nat)
    requires store.Valid()
    modifies store
    ensures store.Valid()
    ensures FileState(store.Contents(), CursorOf(store.cursors, path))
         == FileTurn(env, FileState(old(store.Contents()), CursorOf(old(store.cursors), path)), file, now)
    ensures forall k :: k != (SOURCE_SYSTEM, path) ==>
      (k in store.cursors <==> k in old(store.cursors))
      && (k in store.cursors ==> store.cursors[k] == old(store.cursors)[k])
    ensures inserted == |store.rows| - |old(store.rows)|
  {
    inserted, duplicates := 0, 0;
    var offset := store.CursorGet(SOURCE_SYSTEM, path);
    var captured, newOffset := ParseRollout(env.source, file, offset);
    if newOffset == offset {
      return;
    }
    var events := Prepare(env, captured);
    if events != [] {
      InsertedCount(store.Contents(), events, now);
      var outcomes := store.EnqueueMany(events, now);
      inserted, duplicates := Tally(outcomes);
    }
    store.CursorSet(SOURCE_SYSTEM, path, newOffset);
  }

  function CountInserted(outcomes: seq<EnqueueOutcome>): nat
  {
    if outcomes == [] then 0
    else CountInserted(outcomes[..|outcomes| - 1]) + (if outcomes[|outcomes| - 1] == Inserted then 1 else 0)
  }

  lemma {:induction false} InsertedCount(t: Table, es: seq<Event>, now: int)
    ensures |InsertAll(t, es, now).rows| == |t.rows| + CountInserted(InsertOutcomes(t, es, now))
  {
    if es != [] {
      var front := es[..|es| - 1];
      InsertedCount(t, front, now);
      var o := InsertOutcomes(t, es, now);
      assert o[..|o| - 1] == InsertOutcomes(t, front, now);
    }
  }

  // ---- passes, crashes and a growing file, interleaved ----

  datatype Pass =
    | Resting
    | Reading(offset: nat)
    | Parsed(ids: set<EventId>, newOffset: nat)
    | Stored(newOffset: nat)

  /** `enqueued` is every id the watcher has ever entered in the spool for this file. */
  datatype WatchWorld = WatchWorld(file: Bytes, cursor: nat, enqueued: set<EventId>, passes: map<nat, Pass>)

  datatype WatchStep =
    | Append(more: Bytes)
    | ReadCursor(pass: nat)
    | Parse(pass: nat)
    | Enqueue(pass: nat)
    | WriteCursor(pass: nat)
    | Abandon(pass: nat)

  const WatchStart := WatchWorld([], 0, {}, map[])

  function PassOf(w: WatchWorld, p: nat): Pass
  {
    if p in w.passes then w.passes[p] else Resting
  }

  /** A pass that has read the file from `offset`. */
  function AfterParse(env: WatchEnv, file: Bytes, offset: nat): Pass
  {
    if PassOffset(file, offset) == offset then Resting
    else Parsed(EventIds(ToSpool(env, PassEvents(env.source, file, offset))), PassOffset(file, offset))
  }

  function WatchNext(env: WatchEnv, w: WatchWorld, s: WatchStep): WatchWorld
  {
    match s
    case Append(more) => w.(file := w.file + more)
    case ReadCursor(p) =>
      if PassOf(w, p).Resting? then w.(passes := w.passes[p := Reading(w.cursor)]) else w
    case Parse(p) =>
      (match PassOf(w, p)
       case Reading(offset) => w.(passes := w.passes[p := AfterParse(env, w.file, offset)])
       case _ => w)
    case Enqueue(p) =>
      (match PassOf(w, p)
       case Parsed(ids, newOffset) =>
         w.(enqueued := w.enqueued + ids, passes := w.passes[p := Stored(newOffset)])
       case _ => w)
    case WriteCursor(p) =>
      (match PassOf(w, p)
       case Stored(newOffset) => w.(cursor := newOffset, passes := w.passes[p := Resting])
       case _ => w)
    case Abandon(p) => w.(passes := w.passes[p := Resting])
  }

  function WatchRun(env: WatchEnv, w: WatchWorld, steps: seq<WatchStep>): WatchWorld
  {
    if steps == [] then w
    else WatchNext(env, WatchRun(env, w, steps[..|steps| - 1]), steps[|steps| - 1])
  }

  /** The ids one cold pass over the complete lines of the file yields. */
  function ColdIds(env: WatchEnv, file: Bytes): set<EventId>
  {
    SpoolIds(env, ColdEvents(env.source, file))
  }

  lemma {:induction false} ToSpoolIds(env: WatchEnv, cs: seq<Captured>)
    ensures EventIds(ToSpool(env, cs)) == SpoolIds(env, cs)
  {
    if cs == [] {
      assert WithIds(env, Unnamed(cs)) == [];
    } else {
      var front, last := cs[..|cs| - 1], cs[|cs| - 1];
      ToSpoolIds(env, front);
      assert WithIds(env, Unnamed(cs))[..|cs| - 1] == WithIds(env, Unnamed(front));
      SpoolIdsConcat(env, front, [last]);
      assert cs == front + [last];
      assert SpoolIds(env, [last]) == if Enters(env, last) then {env.derive(last)} else {};
      if Enters(env, last) {
        EventIdsPush(ToSpool(env, cs));
      }
    }
  }

  lemma SpoolIdsConcat(env: WatchEnv, a: seq<Captured>, b: seq<Captured>)
    ensures SpoolIds(env, a + b) == SpoolIds(env, a) + SpoolIds(env, b)
  {
    forall id ensures id in SpoolIds(env, a + b) <==> id in SpoolIds(env, a) || id in SpoolIds(env, b) {
      if id in SpoolIds(env, a) {
        var c :| c in a && Enters(env, c) && env.derive(c) == id;
        assert c in a + b;
      }
      if id in SpoolIds(env, b) {
        var c :| c in b && Enters(env, c) && env.derive(c) == id;
        assert c in a + b;
      }
    }
  }

  /** Ids of passes over the file add up with cold ids at every boundary. */
  ghost predicate IdsAddUp(env: WatchEnv, file: Bytes)
  {
    forall o: nat | Boundary(file, o) :: PassAddsIds(env, file, o)
  }

  predicate PassAddsIds(env: WatchEnv, file: Bytes, o: nat)
    requires Boundary(file, o)
  {
    ColdIds(env, file) == ColdIds(env, file[..o]) + SpoolIds(env, PassEvents(env.source, file, o))
  }

  /** They do so for the file as it was at every moment of its growth. */
  ghost predicate Sound(env: WatchEnv, file: Bytes)
  {
    forall earlier | earlier <= file :: IdsAddUp(env, earlier)
  }

  lemma AnchoredIsSound(env: WatchEnv, file: Bytes)
    requires Anchored(env.source, file)
    ensures Sound(env, file)
  {
    forall earlier | earlier <= file ensures IdsAddUp(env, earlier) {
      AnchoredPrefix(env.source, earlier, file);
      forall o: nat | Boundary(earlier, o) ensures PassAddsIds(env, earlier, o) {
        PassCompletesCold(env.source, earlier, o);
        SpoolIdsConcat(env, ColdEvents(env.source, earlier[..o]), PassEvents(env.source, earlier, o));
      }
    }
  }

  /** The consumed part up to a boundary is covered by what was enqueued. */
  ghost predicate Covered(env: WatchEnv, file: Bytes, o: nat, ids: set<EventId>)
  {
    Boundary(file, o) && ColdIds(env, file[..o]) <= ids
  }

  ghost predicate PassInv(env: WatchEnv, file: Bytes, enqueued: set<EventId>, p: Pass)
  {
    match p
    case Resting => true
    case Reading(offset) => Covered(env, file, offset, enqueued)
    case Parsed(ids, newOffset) => ids <= ColdIds(env, file) && Covered(env, file, newOffset, enqueued + ids)
    case Stored(newOffset) => Covered(env, file, newOffset, enqueued)
  }

  ghost predicate WatchInv(env: WatchEnv, w: WatchWorld)
  {
    && w.enqueued <= ColdIds(env, w.file)
    && Covered(env, w.file, w.cursor, w.enqueued)
    && forall p :: p in w.passes ==> PassInv(env, w.file, w.enqueued, w.passes[p])
  }

  /** Appending never takes back what a cold pass reports. */
  lemma ColdIdsGrow(env: WatchEnv, file: Bytes, longer: Bytes)
    requires file <= longer
    ensures ColdIds(env, file) <= ColdIds(env, longer)
  {
    assert longer == file + longer[|file|..];
    LinesPrefix(file, longer[|file|..]);
    var rest := Lines(longer)[|Lines(file)|..];
    assert Lines(longer) == Lines(file) + rest;
    ColdIsOneFold(env.source, file);
    ColdIsOneFold(env.source, longer);
    EventsConcat(env.source, Lines(file), rest, "", true);
    SpoolIdsConcat(env, ColdEvents(env.source, file),
                   Events(env.source, rest, ThreadAfter(env.source, Lines(file), ""), true));
  }

  lemma ParseCovers(env: WatchEnv, file: Bytes, enqueued: set<EventId>, offset: nat)
    requires IdsAddUp(env, file) && Covered(env, file, offset, enqueued)
    ensures PassInv(env, file, enqueued, AfterParse(env, file, offset))
  {
    var added := PassEvents(env.source, file, offset);
    ToSpoolIds(env, added);
    assert PassAddsIds(env, file, offset);
    OffsetAfterPass(file, offset);
    ConsumedIsBoundary(file);
    CompleteLinesOnly(env, file);
  }

  /** An unterminated last line contributes nothing. */
  lemma CompleteLinesOnly(env: WatchEnv, file: Bytes)
    ensures ColdIds(env, file[..Consumed(file)]) == ColdIds(env, file)
  {
    LinesOfConsumed(file);
    ColdIsOneFold(env.source, file);
    ColdIsOneFold(env.source, file[..Consumed(file)]);
  }

  lemma CoveredByMore(env: WatchEnv, file: Bytes, longer: Bytes, o: nat, ids: set<EventId>, more: set<EventId>)
    requires Covered(env, file, o, ids) && file <= longer && ids <= more
    ensures Covered(env, longer, o, more)
  {
    assert longer[..o] == file[..o];
  }

  /** A pass keeps its invariant while the file grows and more is enqueued. */
  lemma PassKeepsInv(env: WatchEnv, file: Bytes, longer: Bytes, ids: set<EventId>, more: set<EventId>, p: Pass)
    requires PassInv(env, file, ids, p) && file <= longer && ids <= more
    ensures PassInv(env, longer, more, p)
  {
    match p
    case Resting =>
    case Reading(offset) => CoveredByMore(env, file, longer, offset, ids, more);
    case Parsed(own, newOffset) =>
      ColdIdsGrow(env, file, longer);
      CoveredByMore(env, file, longer, newOffset, ids + own, more + own);
    case Stored(newOffset) => CoveredByMore(env, file, longer, newOffset, ids, more);
  }

  lemma AppendKeepsInv(env: WatchEnv, w: WatchWorld, more: Bytes)
    requires WatchInv(env, w)
    ensures WatchInv(env, w.(file := w.file + more))
  {
    ColdIdsGrow(env, w.file, w.file + more);
    CoveredByMore(env, w.file, w.file + more, w.cursor, w.enqueued, w.enqueued);
    forall p | p in w.passes ensures PassInv(env, w.file + more, w.enqueued, w.passes[p]) {
      PassKeepsInv(env, w.file, w.file + more, w.enqueued, w.enqueued, w.passes[p]);
    }
  }

  lemma EnqueueKeepsInv(env: WatchEnv, w: WatchWorld, p: nat)
    requires WatchInv(env, w)
    ensures WatchInv(env, WatchNext(env, w, Enqueue(p)))
  {
    if PassOf(w, p).Parsed? {
      var ids := w.enqueued + PassOf(w, p).ids;
      CoveredByMore(env, w.file, w.file, w.cursor, w.enqueued, ids);
      forall q | q in w.passes ensures PassInv(env, w.file, ids, w.passes[q]) {
        PassKeepsInv(env, w.file, w.file, w.enqueued, ids, w.passes[q]);
      }
    }
  }

  /** One pass moves on; the others and the cursor are as before. */
  lemma PassMoved(env: WatchEnv, w: WatchWorld, p: nat, next: Pass)
    requires WatchInv(env, w) && PassInv(env, w.file, w.enqueued, next)
    ensures WatchInv(env, w.(passes := w.passes[p := next]))
  {
  }

  lemma ParseKeepsInv(env: WatchEnv, w: WatchWorld, p: nat)
    requires WatchInv(env, w) && IdsAddUp(env, w.file)
    ensures WatchInv(env, WatchNext(env, w, Parse(p)))
  {
    if PassOf(w, p).Reading? {
      var offset := PassOf(w, p).offset;
      ParseCovers(env, w.file, w.enqueued, offset);
      PassMoved(env, w, p, AfterParse(env, w.file, offset));
    }
  }

  lemma CursorStepKeepsInv(env: WatchEnv, w: WatchWorld, s: WatchStep)
    requires WatchInv(env, w) && (s.ReadCursor? || s.WriteCursor? || s.Abandon?)
    ensures WatchInv(env, WatchNext(env, w, s))
  {
    match s
    case ReadCursor(p) => PassMoved(env, w, p, Reading(w.cursor));
    case WriteCursor(p) =>
      if PassOf(w, p).Stored? {
        PassMoved(env, w.(cursor := PassOf(w, p).newOffset), p, Resting);
      }
    case Abandon(p) => PassMoved(env, w, p, Resting);
  }

  lemma WatchStepKeepsInv(env: WatchEnv, w: WatchWorld, s: WatchStep)
    requires WatchInv(env, w) && IdsAddUp(env, w.file)
    ensures WatchInv(env, WatchNext(env, w, s))
  {
    match s
    case Append(more) => AppendKeepsInv(env, w, more);
    case Parse(p) => ParseKeepsInv(env, w, p);
    case Enqueue(p) => EnqueueKeepsInv(env, w, p);
    case _ => CursorStepKeepsInv(env, w, s);
  }

  lemma FileOnlyGrows(env: WatchEnv, w: WatchWorld, s: WatchStep)
    ensures w.file <= WatchNext(env, w, s).file
  {
  }

  lemma EarlierSound(env: WatchEnv, earlier: Bytes, file: Bytes)
    requires Sound(env, file) && earlier <= file
    ensures Sound(env, earlier) && IdsAddUp(env, earlier)
  {
  }

  lemma {:induction false} WatchRunInv(env: WatchEnv, steps: seq<WatchStep>)
    requires Sound(env, WatchRun(env, WatchStart, steps).file)
    ensures WatchInv(env, WatchRun(env, WatchStart, steps))
  {
    if steps == [] {
      NothingCold(env);
    } else {
      var w := WatchRun(env, WatchStart, steps[..|steps| - 1]);
      FileOnlyGrows(env, w, steps[|steps| - 1]);
      EarlierSound(env, w.file, WatchNext(env, w, steps[|steps| - 1]).file);
      WatchRunInv(env, steps[..|steps| - 1]);
      WatchStepKeepsInv(env, w, steps[|steps| - 1]);
    }
  }

  lemma NothingCold(env: WatchEnv)
    ensures WatchInv(env, WatchStart)
  {
    ColdIsOneFold(env.source, []);
    assert WatchStart.file[..0] == [];
  }

  /** Incremental equals batch: when passes add up, which they do on every anchored file, then under any
      schedule of appends, passes and crashes the watcher never enters an id that one cold pass over the file
      would not, and once the cursor stands behind the last complete line it has entered every one of them. */
  lemma IncrementalEqualsBatch(env: WatchEnv, steps: seq<WatchStep>)
    requires Sound(env, WatchRun(env, WatchStart, steps).file)
    ensures
      var w := WatchRun(env, WatchStart, steps);
      && w.enqueued <= ColdIds(env, w.file)
      && (w.cursor == Consumed(w.file) ==> w.enqueued == ColdIds(env, w.file))
  {
    WatchRunInv(env, steps);
    CompleteLinesOnly(env, WatchRun(env, WatchStart, steps).file);
  }

  /** The steps of one undisturbed pass. */
  function WholePass(env: WatchEnv, w: WatchWorld, p: nat): WatchWorld
  {
    WatchNext(env, WatchNext(env, WatchNext(env, WatchNext(env, w, ReadCursor(p)), Parse(p)), Enqueue(p)), WriteCursor(p))
  }

  /** The first half of a pass: either nothing new is found, or the new offset is known. */
  lemma ReadThenParse(env: WatchEnv, w: WatchWorld, p: nat)
    requires PassOf(w, p).Resting?
    ensures
      var v := WatchNext(env, WatchNext(env, w, ReadCursor(p)), Parse(p));
      var offset := PassOffset(w.file, w.cursor);
      && v.file == w.file && v.cursor == w.cursor
      && ((PassOf(v, p).Resting? && offset == w.cursor) || (PassOf(v, p).Parsed? && PassOf(v, p).newOffset == offset))
  {
    assert WatchNext(env, w, ReadCursor(p)) == w.(passes := w.passes[p := Reading(w.cursor)]);
  }

  lemma StoreThenWrite(env: WatchEnv, v: WatchWorld, p: nat)
    requires PassOf(v, p).Resting? || PassOf(v, p).Parsed?
    ensures
      var after := WatchNext(env, WatchNext(env, v, Enqueue(p)), WriteCursor(p));
      && after.file == v.file
      && after.cursor == if PassOf(v, p).Parsed? then PassOf(v, p).newOffset else v.cursor
  {
    if PassOf(v, p).Resting? {
      assert WatchNext(env, v, Enqueue(p)) == v;
    } else {
      assert PassOf(WatchNext(env, v, Enqueue(p)), p) == Stored(PassOf(v, p).newOffset);
    }
  }

  lemma WholePassReaches(env: WatchEnv, w: WatchWorld, p: nat)
    requires PassOf(w, p).Resting? && Boundary(w.file, w.cursor)
    ensures WholePass(env, w, p).cursor == Consumed(w.file) && WholePass(env, w, p).file == w.file
  {
    OffsetAfterPass(w.file, w.cursor);
    ReadThenParse(env, w, p);
    StoreThenWrite(env, WatchNext(env, WatchNext(env, w, ReadCursor(p)), Parse(p)), p);
  }

  lemma QuietStep(env: WatchEnv, w: WatchWorld, s: WatchStep)
    requires WatchInv(env, w) && IdsAddUp(env, w.file) && !s.Append?
    ensures WatchInv(env, WatchNext(env, w, s)) && WatchNext(env, w, s).file == w.file
  {
    WatchStepKeepsInv(env, w, s);
  }

  lemma WholePassInv(env: WatchEnv, w: WatchWorld, p: nat)
    requires WatchInv(env, w) && IdsAddUp(env, w.file)
    ensures WatchInv(env, WholePass(env, w, p))
  {
    QuietStep(env, w, ReadCursor(p));
    var w1 := WatchNext(env, w, ReadCursor(p));
    QuietStep(env, w1, Parse(p));
    var w2 := WatchNext(env, w1, Parse(p));
    QuietStep(env, w2, Enqueue(p));
    QuietStep(env, WatchNext(env, w2, Enqueue(p)), WriteCursor(p));
  }

  lemma CaughtUp(env: WatchEnv, w: WatchWorld)
    requires WatchInv(env, w) && w.cursor == Consumed(w.file)
    ensures w.enqueued == ColdIds(env, w.file)
  {
    CompleteLinesOnly(env, w.file);
  }

  /** However the run went, one undisturbed pass at the end makes it equal to the cold pass. */
  lemma LastPassCompletes(env: WatchEnv, steps: seq<WatchStep>, p: nat)
    requires Sound(env, WatchRun(env, WatchStart, steps).file)
    requires PassOf(WatchRun(env, WatchStart, steps), p).Resting?
    ensures
      var w := WatchRun(env, WatchStart, steps);
      WholePass(env, w, p).enqueued == ColdIds(env, w.file)
  {
    var w := WatchRun(env, WatchStart, steps);
    WatchRunInv(env, steps);
    EarlierSound(env, w.file, w.file);
    WholePassInv(env, w, p);
    WholePassReaches(env, w, p);
    CaughtUp(env, WholePass(env, w, p));
  }

  // ---- a file's turn in the watch loop is such a pass ----

  /** The turn moves the cursor as an undisturbed pass does, and adds to the spool's ids what the pass adds to
      the entered ones. */
  lemma FileTurnIsPass(env: WatchEnv, t: Table, w: WatchWorld, p: nat, now: int)
    requires WellFormed(t) && PassOf(w, p).Resting? && Boundary(w.file, w.cursor)
    ensures var after := FileTurn(env, FileState(t, w.cursor), w.file, now);
            var ids := SpoolIds(env, PassEvents(env.source, w.file, w.cursor));
            && after.cursor == WholePass(env, w, p).cursor
            && Ids(after.table.rows) == Ids(t.rows) + ids
            && WholePass(env, w, p).enqueued == w.enqueued + ids
  {
    WholePassReaches(env, w, p);
    WholePassEnters(env, w, p);
    OffsetAfterPass(w.file, w.cursor);
    var events := PassEvents(env.source, w.file, w.cursor);
    ToSpoolIds(env, events);
    if PassOffset(w.file, w.cursor) == w.cursor {
      NothingNew(env.source, w.file, w.cursor);
      assert SpoolIds(env, []) == {};
    } else {
      InsertAllWellFormed(t, ToSpool(env, events), now);
    }
  }

  // ---- and only then ----

  function PassSteps(p: nat): seq<WatchStep>
  {
    [ReadCursor(p), Parse(p), Enqueue(p), WriteCursor(p)]
  }

  lemma WatchRunPush(env: WatchEnv, w: WatchWorld, steps: seq<WatchStep>, s: WatchStep)
    ensures WatchRun(env, w, steps + [s]) == WatchNext(env, WatchRun(env, w, steps), s)
  {
    assert (steps + [s])[..|steps|] == steps;
  }

  lemma {:induction false} WatchRunAppend(env: WatchEnv, w: WatchWorld, a: seq<WatchStep>, b: seq<WatchStep>)
    ensures WatchRun(env, w, a + b) == WatchRun(env, WatchRun(env, w, a), b)
  {
    if b == [] {
      JoinEmpty(a);
    } else {
      WatchRunAppend(env, w, a, b[..|b| - 1]);
      SplitLast(a, b);
    }
  }

  lemma PassIsRun(env: WatchEnv, w: WatchWorld, p: nat)
    ensures WatchRun(env, w, PassSteps(p)) == WholePass(env, w, p)
  {
    var a, b, c, d := ReadCursor(p), Parse(p), Enqueue(p), WriteCursor(p);
    WatchRunPush(env, w, [], a);
    WatchRunPush(env, w, [a], b);
    WatchRunPush(env, w, [a, b], c);
    WatchRunPush(env, w, [a, b, c], d);
    assert [] + [a] == [a] && [a] + [b] == [a, b] && [a, b] + [c] == [a, b, c];
    assert [a, b, c] + [d] == PassSteps(p);
  }

  /** What a whole pass enters: the ids of the events behind the cursor. */
  lemma WholePassEnters(env: WatchEnv, w: WatchWorld, p: nat)
    requires PassOf(w, p).Resting? && Boundary(w.file, w.cursor)
    ensures WholePass(env, w, p).enqueued == w.enqueued + SpoolIds(env, PassEvents(env.source, w.file, w.cursor))
    ensures PassOf(WholePass(env, w, p), p).Resting?
  {
    var w1 := w.(passes := w.passes[p := Reading(w.cursor)]);
    assert WatchNext(env, w, ReadCursor(p)) == w1;
    var events := PassEvents(env.source, w.file, w.cursor);
    if PassOffset(w.file, w.cursor) == w.cursor {
      NothingNew(env.source, w.file, w.cursor);
      assert SpoolIds(env, []) == {};
      RestThrough(env, w1, p);
    } else {
      ToSpoolIds(env, events);
      StoreThrough(env, w1, p, SpoolIds(env, events), PassOffset(w.file, w.cursor));
    }
  }

  lemma RestThrough(env: WatchEnv, w: WatchWorld, p: nat)
    requires PassOf(w, p).Reading? && PassOffset(w.file, PassOf(w, p).offset) == PassOf(w, p).offset
    ensures var v := WatchNext(env, WatchNext(env, WatchNext(env, w, Parse(p)), Enqueue(p)), WriteCursor(p));
            v.enqueued == w.enqueued && PassOf(v, p).Resting?
  {
    var v := w.(passes := w.passes[p := Resting]);
    assert WatchNext(env, w, Parse(p)) == v;
    assert WatchNext(env, v, Enqueue(p)) == v;
  }

  lemma StoreThrough(env: WatchEnv, w: WatchWorld, p: nat, ids: set<EventId>, newOffset: nat)
    requires PassOf(w, p).Reading? && PassOffset(w.file, PassOf(w, p).offset) == newOffset != PassOf(w, p).offset
    requires ids == EventIds(ToSpool(env, PassEvents(env.source, w.file, PassOf(w, p).offset)))
    ensures var v := WatchNext(env, WatchNext(env, WatchNext(env, w, Parse(p)), Enqueue(p)), WriteCursor(p));
            v.enqueued == w.enqueued + ids && PassOf(v, p).Resting?
  {
    var parsed := w.(passes := w.passes[p := Parsed(ids, newOffset)]);
    assert WatchNext(env, w, Parse(p)) == parsed;
    var stored := parsed.(enqueued := w.enqueued + ids, passes := parsed.passes[p := Stored(newOffset)]);
    assert WatchNext(env, parsed, Enqueue(p)) == stored;
  }

  /** A pass that consumes nothing yields nothing. */
  lemma NothingNew(src: Source, file: Bytes, o: nat)
    requires o <= |file| && PassOffset(file, o) == o
    ensures PassEvents(src, file, o) == []
  {
    LinesOfConsumed(file[o..]);
    assert file[o..][..0] == [];
  }

  function GrowSteps(more: Bytes): seq<WatchStep>
  {
    [Append(more)] + PassSteps(0)
  }

  /** The file grows up to a boundary, is read, grows to its end, and is read again. */
  function TwoPasses(file: Bytes, o: nat): seq<WatchStep>
    requires o <= |file|
  {
    GrowSteps(file[..o]) + GrowSteps(file[o..])
  }

  lemma GrowRuns(env: WatchEnv, w: WatchWorld, more: Bytes)
    ensures WatchRun(env, w, GrowSteps(more)) == WholePass(env, w.(file := w.file + more), 0)
  {
    WatchRunAppend(env, w, [Append(more)], PassSteps(0));
    WatchRunOne(env, w, Append(more));
    PassIsRun(env, w.(file := w.file + more), 0);
  }

  lemma WatchRunOne(env: WatchEnv, w: WatchWorld, s: WatchStep)
    ensures WatchRun(env, w, [s]) == WatchNext(env, w, s)
  {
    assert [s][..0] == [];
  }

  lemma GrowAndRead(env: WatchEnv, w: WatchWorld, more: Bytes, file: Bytes)
    requires file == w.file + more && PassOf(w, 0).Resting? && Boundary(file, w.cursor)
    ensures var v := WatchRun(env, w, GrowSteps(more));
            && v.file == file && v.cursor == Consumed(file) && PassOf(v, 0).Resting?
            && v.enqueued == w.enqueued + SpoolIds(env, PassEvents(env.source, file, w.cursor))
  {
    GrowRuns(env, w, more);
    WholePassReaches(env, w.(file := file), 0);
    WholePassEnters(env, w.(file := file), 0);
  }

  lemma ConsumedAtBoundary(file: Bytes, o: nat)
    requires Boundary(file, o)
    ensures Consumed(file[..o]) == o && file[..o] + file[o..] == file
  {
  }

  lemma TwoPassesEnter(env: WatchEnv, file: Bytes, o: nat)
    requires Boundary(file, o)
    ensures var v := WatchRun(env, WatchStart, TwoPasses(file, o));
            && v.file == file && v.cursor == Consumed(file)
            && v.enqueued == ColdIds(env, file[..o]) + SpoolIds(env, PassEvents(env.source, file, o))
  {
    WatchRunAppend(env, WatchStart, GrowSteps(file[..o]), GrowSteps(file[o..]));
    ConsumedAtBoundary(file, o);
    JoinEmpty(file[..o]);
    GrowAndRead(env, WatchStart, file[..o], file[..o]);
    GrowAndRead(env, WatchRun(env, WatchStart, GrowSteps(file[..o])), file[o..], file);
  }

  /** If the schedule ends with the cursor behind the last complete line, exactly the cold ids are entered. */
  ghost predicate RightWhenCaughtUp(env: WatchEnv, steps: seq<WatchStep>)
  {
    var w := WatchRun(env, WatchStart, steps);
    w.cursor == Consumed(w.file) ==> w.enqueued == ColdIds(env, w.file)
  }

  /** Every schedule over a growing file is right whenever it has caught up exactly when the ids of passes
      add up at every boundary and every moment of the growth. */
  lemma SoundIsExact(env: WatchEnv, file: Bytes)
    ensures Sound(env, file)
       <==> forall steps | WatchRun(env, WatchStart, steps).file <= file :: RightWhenCaughtUp(env, steps)
  {
    if Sound(env, file) {
      forall steps | WatchRun(env, WatchStart, steps).file <= file ensures RightWhenCaughtUp(env, steps) {
        EarlierSound(env, WatchRun(env, WatchStart, steps).file, file);
        IncrementalEqualsBatch(env, steps);
      }
    } else {
      var earlier :| earlier <= file && !IdsAddUp(env, earlier);
      var o: nat :| Boundary(earlier, o) && !PassAddsIds(env, earlier, o);
      TwoPassesEnter(env, earlier, o);
      assert !RightWhenCaughtUp(env, TwoPasses(earlier, o));
    }
  }
}
