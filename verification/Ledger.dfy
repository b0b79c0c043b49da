/** The append-only reservation ledger of labs/self_improvement/evaluation.py.

    The log is the file: one entry per line, each append atomic. `Fold` is what reading the
    file back yields, `ReservationLedger` is the object that keeps the same map in memory. */
module Ledger {

  datatype State = Reserved | Completed | Failed | Unknown | Recorded

  predicate Terminal(s: State) {
    s.Completed? || s.Failed? || s.Unknown?
  }

  datatype Entry = Entry(batch: string, key: string, state: State)

  datatype Slot = Slot(batch: string, state: State)

  type States = map<string, Slot>

  datatype ReadError =
    | InvalidValues
    | EventAfterRecorded
    | KeyInManyBatches
    | SecondTerminalEvent
    | RecordedBeforeTerminal
    | BackToReserved

  datatype ReadResult = Accepted(states: States) | Refused(error: ReadError)

  predicate ValidValues(e: Entry) {
    0 < |e.batch| <= 120 && 0 < |e.key| <= 240
  }

  /** One line of the file, in the order in which the reader tests it. */
  function ReadEntry(states: States, e: Entry): ReadResult {
    if !ValidValues(e) then Refused(InvalidValues)
    else if e.key !in states then Accepted(states[e.key := Slot(e.batch, e.state)])
    else
      var previous := states[e.key];
      if previous.state == Recorded then Refused(EventAfterRecorded)
      else if previous.batch != e.batch then Refused(KeyInManyBatches)
      else if previous.state != Reserved && e.state != Recorded then Refused(SecondTerminalEvent)
      else if previous.state == Reserved && e.state == Recorded then Refused(RecordedBeforeTerminal)
      else if e.state == Reserved then Refused(BackToReserved)
      else Accepted(states[e.key := Slot(e.batch, e.state)])
  }

  /** The file read from its first line to its last. */
  function Fold(log: seq<Entry>): ReadResult {
    if log == [] then Accepted(map[])
    else
      var before := Fold(log[..|log| - 1]);
      if before.Refused? then before else ReadEntry(before.states, log[|log| - 1])
  }

  method Read(log: seq<Entry>) returns (r: ReadResult)
    ensures r == Fold(log)
  {
    var states: States := map[];
    for i := 0 to |log|
      invariant Fold(log[..i]) == Accepted(states)
    {
      assert log[..i + 1][..i] == log[..i];
      var step := ReadEntry(states, log[i]);
      if step.Refused? {
        RefusalIsFinal(log, i + 1);
        return step;
      }
      states := step.states;
    }
    assert log[..|log|] == log;
    return Accepted(states);
  }

  lemma {:induction false} RefusalIsFinal(log: seq<Entry>, n: nat)
    requires n <= |log| && Fold(log[..n]).Refused?
    ensures Fold(log) == Fold(log[..n])
    decreases |log|
  {
    if n == |log| {
      assert log[..n] == log;
    } else {
      assert log[..|log| - 1][..n] == log[..n];
      RefusalIsFinal(log[..|log| - 1], n);
    }
  }

  lemma FoldAppend(log: seq<Entry>, e: Entry)
    ensures Fold(log + [e]) ==
            if Fold(log).Refused? then Fold(log) else ReadEntry(Fold(log).states, e)
  {
    assert (log + [e])[..|log|] == log;
  }

  // ---- What an accepted file looks like, key by key ----

  /** The events of one key, in file order. */
  function History(log: seq<Entry>, key: string): seq<Entry> {
    if log == [] then []
    else
      var before := History(log[..|log| - 1], key);
      if log[|log| - 1].key == key then before + [log[|log| - 1]] else before
  }

  predicate Follows(a: State, b: State) {
    (a.Reserved? && Terminal(b)) || (Terminal(a) && b.Recorded?)
  }

  /** Each event continues the one before it, under the same batch. */
  predicate Lawful(h: seq<Entry>) {
    forall i :: 0 < i < |h| ==> h[i - 1].batch == h[i].batch && Follows(h[i - 1].state, h[i].state)
  }

  ghost predicate LawfulLog(log: seq<Entry>) {
    && (forall i :: 0 <= i < |log| ==> 0 < |log[i].batch| <= 120 && 0 < |log[i].key| <= 240)
    && (forall key :: Lawful(History(log, key)))
  }

  /** Every key starts with its reservation: true of files only this code has written. */
  ghost predicate Born(log: seq<Entry>) {
    forall key :: History(log, key) != [] ==> History(log, key)[0].state == Reserved
  }

  predicate Mirrors(states: States, h: seq<Entry>, key: string) {
    if h == [] then key !in states
    else key in states && states[key] == Slot(h[|h| - 1].batch, h[|h| - 1].state)
  }

  lemma HistoryAppend(log: seq<Entry>, e: Entry, key: string)
    ensures History(log + [e], key) == if e.key == key then History(log, key) + [e] else History(log, key)
  {
    assert (log + [e])[..|log|] == log;
  }

  predicate Continues(h: seq<Entry>, e: Entry) {
    h == [] || (h[|h| - 1].batch == e.batch && Follows(h[|h| - 1].state, e.state))
  }

  lemma LawfulExtension(h: seq<Entry>, e: Entry)
    requires Lawful(h)
    ensures Lawful(h + [e]) <==> Continues(h, e)
  {
    var g := h + [e];
    if h != [] {
      assert g[|h| - 1] == h[|h| - 1] && g[|h|] == e;
    }
  }

  lemma LawfulLogExtension(log: seq<Entry>, e: Entry)
    requires LawfulLog(log)
    ensures LawfulLog(log + [e]) <==> ValidValues(e) && Continues(History(log, e.key), e)
  {
    var all := log + [e];
    HistoryAppend(log, e, e.key);
    LawfulExtension(History(log, e.key), e);
    assert all[|log|] == e;
    if ValidValues(e) && Continues(History(log, e.key), e) {
      forall key ensures Lawful(History(all, key)) {
        HistoryAppend(log, e, key);
      }
    }
  }

  /** On the map of a lawful file, the reader takes exactly the entries that continue their key. */
  lemma ReadEntryContinues(states: States, h: seq<Entry>, e: Entry)
    requires Mirrors(states, h, e.key)
    ensures ReadEntry(states, e).Accepted? <==> ValidValues(e) && Continues(h, e)
  {
  }

  lemma MirrorsExtension(log: seq<Entry>, e: Entry, states: States, key: string)
    requires Mirrors(states, History(log, key), key) && ReadEntry(states, e).Accepted?
    ensures Mirrors(ReadEntry(states, e).states, History(log + [e], key), key)
  {
    HistoryAppend(log, e, key);
  }

  /** The reader accepts a file exactly when every line is valid and every key's events are
      lawful, and then the map holds the last event of every key. */
  lemma {:induction false} ReadAcceptsLawful(log: seq<Entry>)
    ensures Fold(log).Accepted? <==> LawfulLog(log)
    ensures Fold(log).Accepted? ==> forall key :: Mirrors(Fold(log).states, History(log, key), key)
  {
    if log != [] {
      var before, e := log[..|log| - 1], log[|log| - 1];
      assert log == before + [e];
      ReadAcceptsLawful(before);
      FoldAppend(before, e);
      if Fold(before).Accepted? {
        ReadEntryContinues(Fold(before).states, History(before, e.key), e);
        LawfulLogExtension(before, e);
        if Fold(log).Accepted? {
          forall key ensures Mirrors(Fold(log).states, History(log, key), key) {
            MirrorsExtension(before, e, Fold(before).states, key);
          }
        }
      } else {
        UnlawfulStays(before, e);
      }
    }
  }

  lemma UnlawfulStays(log: seq<Entry>, e: Entry)
    requires !LawfulLog(log)
    ensures !LawfulLog(log + [e])
  {
    var all := log + [e];
    if i :| 0 <= i < |log| && !ValidValues(log[i]) {
      assert all[i] == log[i];
    } else {
      var key :| !Lawful(History(log, key));
      HistoryAppend(log, e, key);
      var h, g := History(log, key), History(all, key);
      var i :| 0 < i < |h| && !(h[i - 1].batch == h[i].batch && Follows(h[i - 1].state, h[i].state));
      assert g[i - 1] == h[i - 1] && g[i] == h[i];
    }
  }

  /** In a file this code has written, a key's events are a prefix of: reserved, then one of
      completed, failed or unknown, then recorded, all under one batch id. */
  lemma HistoryShape(log: seq<Entry>, key: string)
    requires Fold(log).Accepted? && Born(log)
    ensures var h := History(log, key);
            && |h| <= 3
            && (|h| > 0 ==> h[0].state == Reserved)
            && (|h| > 1 ==> Terminal(h[1].state) && h[1].batch == h[0].batch)
            && (|h| > 2 ==> h[2].state == Recorded && h[2].batch == h[0].batch)
  {
    ReadAcceptsLawful(log);
    var h := History(log, key);
    assert Lawful(h);
    assert |h| > 1 ==> Follows(h[0].state, h[1].state);
    assert |h| > 2 ==> Follows(h[1].state, h[2].state);
    assert |h| > 3 ==> Follows(h[2].state, h[3].state);
  }

  /** Without `Born` the shape fails: the reader also accepts a key whose first event is not a
      reservation. */
  lemma ReaderAcceptsUnbornKey()
    ensures var log := [Entry("b", "k", Completed)];
            Fold(log).Accepted? && History(log, "k") == log && !Born(log)
  {
    var log := [Entry("b", "k", Completed)];
    assert log[..0] == [];
    assert History(log, "k") == log;
    assert History(log, "k")[0].state == Completed;
  }

  // ---- The writer ----

  datatype Outcome =
    | Done
    | InvalidBatch
    | InvalidKey
    | ReservationExists
    | InvalidTerminalState
    | UnknownKey
    | AlreadyFinalized
    | NotFinalized

  predicate ValidName(s: string, limit: nat) {
    0 < |s| <= limit && '\n' !in s
  }

  function InState(states: States, p: State -> bool): (r: set<string>)
    ensures forall key :: key in r <==> key in states && p(states[key].state)
  {
    set key | key in states && p(states[key].state)
  }

  class ReservationLedger {
    var log: seq<Entry>
    var states: States

    /** The map in memory is the file folded. */
    ghost predicate Valid()
      reads this
    {
      Fold(log) == Accepted(states)
    }

    constructor (file: seq<Entry>, read: States)
      requires Fold(file) == Accepted(read)
      ensures Valid() && log == file && states == read
    {
      log := file;
      states := read;
    }

    method Append(e: Entry)
      requires Valid() && ReadEntry(states, e) == Accepted(states[e.key := Slot(e.batch, e.state)])
      requires e.key !in states ==> e.state == Reserved
      modifies this
      ensures Valid() && log == old(log) + [e]
      ensures states == old(states)[e.key := Slot(e.batch, e.state)]
      ensures Born(old(log)) ==> Born(log)
    {
      FoldAppend(log, e);
      BornAppend(log, e, states);
      log := log + [e];
      states := states[e.key := Slot(e.batch, e.state)];
    }

    method Reserve(batch: string, key: string) returns (o: Outcome)
      requires Valid()
      modifies this
      ensures Valid() && (Born(old(log)) ==> Born(log))
      ensures o == (if !ValidName(batch, 120) then InvalidBatch
                    else if !ValidName(key, 240) then InvalidKey
                    else if key in old(states) then ReservationExists
                    else Done)
      ensures o.Done? <==> && 0 < |batch| <= 120 && '\n' !in batch && 0 < |key| <= 240 && '\n' !in key
                           && key !in old(states)
      ensures o.Done? ==> log == old(log) + [Entry(batch, key, Reserved)] &&
                          states == old(states)[key := Slot(batch, Reserved)]
      ensures !o.Done? ==> log == old(log) && states == old(states)
    {
      if !ValidName(batch, 120) { return InvalidBatch; }
      if !ValidName(key, 240) { return InvalidKey; }
      if key in states { return ReservationExists; }
      Append(Entry(batch, key, Reserved));
      return Done;
    }

    method Finish(key: string, state: State) returns (o: Outcome)
      requires Valid()
      modifies this
      ensures Valid() && (Born(old(log)) ==> Born(log))
      ensures o == (if !Terminal(state) then InvalidTerminalState
                    else if key !in old(states) then UnknownKey
                    else if old(states)[key].state != Reserved then AlreadyFinalized
                    else Done)
      ensures o.Done? ==> log == old(log) + [Entry(old(states)[key].batch, key, state)] &&
                          states == old(states)[key := Slot(old(states)[key].batch, state)]
      ensures !o.Done? ==> log == old(log) && states == old(states)
    {
      if !Terminal(state) { return InvalidTerminalState; }
      if key !in states { return UnknownKey; }
      var previous := states[key];
      if previous.state != Reserved { return AlreadyFinalized; }
      StoredValuesValid(log, key);
      Append(Entry(previous.batch, key, state));
      return Done;
    }

    /** Marks in the order given; a key it cannot mark stops it, and what was marked stays. */
    method MarkRecorded(keys: seq<string>) returns (o: Outcome, marked: seq<string>)
      requires Valid()
      modifies this
      ensures Valid() && (Born(old(log)) ==> Born(log))
      ensures Advanced(old(log), old(states), marked, Recorded, log, states)
      ensures forall key :: key in marked ==> key in keys
      ensures o.Done? ==> forall key :: key in keys ==> key in states && states[key].state == Recorded
      ensures o.Done? <==> forall key :: key in keys ==> key in old(states) && old(states)[key].state != Reserved
    {
      marked := [];
      for i := 0 to |keys|
        invariant Valid() && (Born(old(log)) ==> Born(log))
        invariant Advanced(old(log), old(states), marked, Recorded, log, states)
        invariant forall key :: key in marked ==> key in keys
        invariant forall j :: 0 <= j < i ==> keys[j] in states && states[keys[j]].state == Recorded
      {
        var key := keys[i];
        if key !in states { return UnknownKey, marked; }
        if states[key].state == Recorded { continue; }
        if !Terminal(states[key].state) { return NotFinalized, marked; }
        StoredValuesValid(log, key);
        AdvanceOneMore(old(log), old(states), marked, Recorded, log, states, key);
        Append(Entry(states[key].batch, key, Recorded));
        marked := marked + [key];
      }
      return Done, marked;
    }

    /** Finalizes every stale reservation as unknown, in some order. */
    method ReconcileReserved() returns (stale: seq<string>)
      requires Valid()
      modifies this
      ensures Valid() && (Born(old(log)) ==> Born(log))
      ensures Advanced(old(log), old(states), stale, Unknown, log, states)
      ensures forall key :: key in states ==> states[key].state != Reserved
    {
      stale := [];
      var todo := InState(states, s => s == Reserved);
      while todo != {}
        invariant Valid() && (Born(old(log)) ==> Born(log))
        invariant Advanced(old(log), old(states), stale, Unknown, log, states)
        invariant forall key :: key in todo <==> key in states && states[key].state == Reserved
        decreases |todo|
      {
        var key :| key in todo;
        AdvanceOneMore(old(log), old(states), stale, Unknown, log, states, key);
        var o := Finish(key, Unknown);
        stale := stale + [key];
        todo := todo - {key};
      }
    }

    /** Marks the finalized keys among those wanted, in some order. */
    method MarkRecordedMatching(wanted: set<string>) returns (marked: seq<string>)
      requires Valid()
      modifies this
      ensures Valid() && (Born(old(log)) ==> Born(log))
      ensures Advanced(old(log), old(states), marked, Recorded, log, states)
      ensures forall key :: key in marked <==> key in wanted && key in old(states) && Terminal(old(states)[key].state)
    {
      var todo := set key | key in states && Terminal(states[key].state) && key in wanted;
      var keys: seq<string> := [];
      ghost var all := todo;
      while todo != {}
        invariant forall key :: key in all <==> key in todo || key in keys
        decreases |todo|
      {
        var key :| key in todo;
        keys := keys + [key];
        todo := todo - {key};
      }
      var o;
      o, marked := MarkRecorded(keys);
      forall key | key in all ensures key in marked {
        assert key in keys;
        assert old(states)[key].state != Recorded && states[key].state == Recorded;
      }
    }
  }

  /** One event per key, in order, under the batch the key was reserved for. */
  function Events(states: States, keys: seq<string>, state: State): seq<Entry>
    requires forall key :: key in keys ==> key in states
  {
    seq(|keys|, i requires 0 <= i < |keys| => Entry(states[keys[i]].batch, keys[i], state))
  }

  /** `keys` are distinct and each could move to `to`; the log gained that event for each of
      them, in order, and nothing else changed. */
  ghost predicate Advanced(log: seq<Entry>, states: States, keys: seq<string>, to: State, log': seq<Entry>,
                           states': States) {
    && (forall i, j :: 0 <= i < j < |keys| ==> keys[i] != keys[j])
    && (forall key :: key in keys ==> key in states && Follows(states[key].state, to))
    && log' == log + Events(states, keys, to)
    && states'.Keys == states.Keys
    && (forall key :: key in states ==>
          states'[key] == if key in keys then Slot(states[key].batch, to) else states[key])
  }

  lemma AdvanceOneMore(log: seq<Entry>, states: States, keys: seq<string>, to: State, log': seq<Entry>, states': States,
                       key: string)
    requires Advanced(log, states, keys, to, log', states')
    requires key in states' && Follows(states'[key].state, to)
    ensures Advanced(log, states, keys + [key], to, log' + [Entry(states'[key].batch, key, to)],
                     states'[key := Slot(states'[key].batch, to)])
  {
    assert states'[key] == states[key] && key !in keys;
    assert Events(states, keys + [key], to) == Events(states, keys, to) + [Entry(states[key].batch, key, to)];
  }

  lemma BornAppend(log: seq<Entry>, e: Entry, states: States)
    requires Fold(log) == Accepted(states)
    requires e.key !in states ==> e.state == Reserved
    ensures Born(log) ==> Born(log + [e])
  {
    ReadAcceptsLawful(log);
    if Born(log) {
      forall key | History(log + [e], key) != [] ensures History(log + [e], key)[0].state == Reserved {
        HistoryAppend(log, e, key);
        assert Mirrors(states, History(log, key), key);
      }
    }
  }

  /** What was read or written passes the reader's bounds, so it can be written again. */
  lemma {:induction false} StoredValuesValid(log: seq<Entry>, key: string)
    requires Fold(log).Accepted? && key in Fold(log).states
    ensures 0 < |Fold(log).states[key].batch| <= 120 && 0 < |key| <= 240
  {
    var before, e := log[..|log| - 1], log[|log| - 1];
    if e.key != key {
      StoredValuesValid(before, key);
    }
  }
}
