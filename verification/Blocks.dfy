/** Finalized blocks of the source chain, and the events of a range of them. */
module Blocks {
  datatype Event = Event(block: nat, index: nat)

  /** What the finalized blocks contain; finalized blocks do not change. */
  type Source = nat -> seq<Event>

  /** The events of blocks `from` up to but not including `until`, oldest first. */
  function EventsIn(blocks: Source, from: nat, until: nat): seq<Event>
    decreases until
  {
    if from >= until then [] else EventsIn(blocks, from, until - 1) + blocks(until - 1)
  }

  /** Ranges that meet have their events one after the other, and a single block has exactly its own. */
  lemma {:induction false} EventsSplit(blocks: Source, from: nat, middle: nat, until: nat)
    requires from <= middle <= until
    ensures EventsIn(blocks, from, until) == EventsIn(blocks, from, middle) + EventsIn(blocks, middle, until)
    ensures EventsIn(blocks, from, from + 1) == blocks(from) && EventsIn(blocks, until, from) == []
    decreases until
  {
    assert EventsIn(blocks, from, from) == [];
    if middle < until {
      EventsSplit(blocks, from, middle, until - 1);
    } else {
      assert EventsIn(blocks, middle, until) == [];
    }
  }

  function SetOf(events: seq<Event>): (r: set<Event>)
    ensures forall e :: e in r <==> e in events
  {
    if events == [] then {} else {events[0]} + SetOf(events[1..])
  }

  lemma SetOfSnoc(events: seq<Event>, e: Event)
    ensures SetOf(events + [e]) == SetOf(events) + {e}
  {
  }

  ghost predicate BlockDone(blocks: Source, b: nat, done: set<Event>) {
    forall e | e in blocks(b) :: e in done
  }

  ghost predicate RangeDone(blocks: Source, from: nat, until: nat, done: set<Event>) {
    forall b: nat {:trigger BlockDone(blocks, b, done)} | from <= b < until :: BlockDone(blocks, b, done)
  }

  /** A range is done exactly when every event of its batch is. */
  lemma {:induction false} RangeDoneIff(blocks: Source, from: nat, until: nat, done: set<Event>)
    ensures RangeDone(blocks, from, until, done) <==> forall e | e in EventsIn(blocks, from, until) :: e in done
    decreases until
  {
    if from < until {
      RangeDoneIff(blocks, from, until - 1, done);
      var rest := EventsIn(blocks, from, until - 1);
      assert forall e :: e in EventsIn(blocks, from, until) <==> e in rest || e in blocks(until - 1);
      if forall e | e in EventsIn(blocks, from, until) :: e in done {
        assert BlockDone(blocks, until - 1, done);
      }
      if RangeDone(blocks, from, until, done) {
        assert BlockDone(blocks, until - 1, done);
        assert RangeDone(blocks, from, until - 1, done);
      }
    }
  }

  lemma RangeDoneGrows(blocks: Source, from: nat, until: nat, done: set<Event>, done': set<Event>)
    requires RangeDone(blocks, from, until, done) && done <= done'
    ensures RangeDone(blocks, from, until, done')
  {
    forall b: nat | from <= b < until ensures BlockDone(blocks, b, done') {
      assert BlockDone(blocks, b, done);
    }
  }

  /** `fetch_events_in_block_range`: one fetch per block of the inclusive range, flattened in block order. */
  method FetchEventsInBlockRange(blocks: Source, from: nat, last: nat) returns (events: seq<Event>)
    ensures events == EventsIn(blocks, from, last + 1)
  {
    var fetched: seq<seq<Event>> := [];
    var b := from;
    while b <= last
      invariant b == from || b <= last + 1
      invariant Flatten(fetched) == EventsIn(blocks, from, b)
    {
      FlattenPush(fetched, blocks(b));
      fetched := fetched + [blocks(b)];
      b := b + 1;
    }
    events := Flatten(fetched);
  }

  function Flatten(chunks: seq<seq<Event>>): seq<Event>
    decreases |chunks|
  {
    if chunks == [] then [] else Flatten(chunks[..|chunks| - 1]) + chunks[|chunks| - 1]
  }

  lemma FlattenPush(chunks: seq<seq<Event>>, chunk: seq<Event>)
    ensures Flatten(chunks + [chunk]) == Flatten(chunks) + chunk
  {
    assert (chunks + [chunk])[..|chunks|] == chunks;
  }

  /** The last block of the next batch: never past the finalized block, at most `step` blocks. */
  function BatchEnd(from: nat, finalized: nat, step: nat): (to: nat)
    requires step >= 1 && finalized >= from
    ensures from <= to <= finalized && to - from < step
    ensures to == finalized || to - from == step - 1
  {
    if finalized < from + step - 1 then finalized else from + step - 1
  }
}
