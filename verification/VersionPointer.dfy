/** The lab's active version (labs/self_improvement/candidates.py): immutable receipts, a pointer
    moved by compare-and-swap, and rollback. */
module VersionPointer {
  import opened Basics

  datatype Change = Select | Rollback

  datatype Selection = Selection(id: string, previous: string, selected: string, change: Change,
                                 evidence: seq<string>, digests: map<string, string>, reason: string)

  predicate IsDigest(d: string) {
    |d| == 64 && forall i :: 0 <= i < 64 ==> '0' <= d[i] <= '9' || 'a' <= d[i] <= 'f'
  }

  /** The validator of a selection. */
  predicate ValidSelection(s: Selection) {
    && 1 <= |s.previous| <= 120 && 1 <= |s.selected| <= 120 && 1 <= |s.evidence| <= 240 && 1 <= |s.reason| <= 500
    && s.previous != s.selected && s.digests.Keys == {s.previous, s.selected}
    && forall v :: v in s.digests ==> IsDigest(s.digests[v])
  }

  datatype Active = Active(version: string, digest: string, selection: string, change: Change)

  datatype Error =
    | InvalidSelection
    | ReceiptExists | ReceiptMissing
    | UnknownVersion | ContentChanged | StalePointer
    | CannotRollBackRollback
    | StorageFailed
    | Killed

  /** What storage does to one apply: nothing wrong, the receipt's write fails, the pointer's write
      fails, or the process dies with the receipt written and the pointer not. */
  datatype Fault = NoFault | ReceiptFails | PointerFails | DiesBetween

  type IdFunction = (string, string, seq<string>, map<string, string>) -> string

  /** The identifier digests the versions, the evidence and the contents, but neither the kind of
      change nor the reason. */
  function SelectionFor(ids: IdFunction, previous: string, selected: string, evidence: seq<string>, reason: string,
                        change: Change, digests: map<string, string>): Selection {
    Selection(ids(previous, selected, evidence, digests), previous, selected, change, evidence, digests, reason)
  }

  /** What a selection may be built from. */
  predicate Buildable(previous: string, selected: string, evidence: seq<string>, reason: string,
                      digests: map<string, string>) {
    && 1 <= |previous| <= 120 && 1 <= |selected| <= 120 && previous != selected
    && 1 <= |evidence| <= 240 && 1 <= |reason| <= 500
    && digests.Keys == {previous, selected} && IsDigest(digests[previous]) && IsDigest(digests[selected])
  }

  function BuildSelection(ids: IdFunction, previous: string, selected: string, evidence: seq<string>, reason: string,
                          change: Change, digests: map<string, string>): (r: Option<Selection>)
    ensures r.Some? <==> Buildable(previous, selected, evidence, reason, digests)
    ensures r.Some? ==> ValidSelection(r.value)
    ensures r.Some? ==> r.value == SelectionFor(ids, previous, selected, evidence, reason, change, digests)
  {
    var s := SelectionFor(ids, previous, selected, evidence, reason, change, digests);
    if evidence == [] || !(digests.Keys <= {previous, selected}) || !ValidSelection(s) then None else Some(s)
  }

  /** The pointer that activating a selection yields. */
  function PointerOf(s: Selection): Active
    requires ValidSelection(s)
  {
    Active(s.selected, s.digests[s.selected], s.id, s.change)
  }

  /** Activations in order: each starts where the one before it ended, at the same content. */
  ghost predicate Chained(history: seq<Selection>) {
    && (forall i :: 0 <= i < |history| ==> ValidSelection(history[i]))
    && (forall i :: 0 < i < |history| ==> Linked(history[i - 1], history[i]))
  }

  predicate Linked(a: Selection, b: Selection) {
    && ValidSelection(a) && ValidSelection(b)
    && b.previous == a.selected && b.digests[b.previous] == a.digests[a.selected]
  }

  ghost predicate ReceiptsOk(receipts: map<string, Selection>) {
    forall id :: id in receipts ==> receipts[id].id == id && ValidSelection(receipts[id])
  }

  ghost predicate Filed(history: seq<Selection>, receipts: map<string, Selection>) {
    forall i :: 0 <= i < |history| ==> history[i].id in receipts && receipts[history[i].id] == history[i]
  }

  ghost predicate PointsAtLast(active: Option<Active>, history: seq<Selection>)
    requires Chained(history)
  {
    active == if history == [] then None else Some(PointerOf(history[|history| - 1]))
  }

  lemma ChainGrows(history: seq<Selection>, s: Selection, receipts: map<string, Selection>)
    requires Chained(history) && Filed(history, receipts) && ValidSelection(s) && s.id in receipts
             && receipts[s.id] == s
    requires history != [] ==>
               var p := PointerOf(history[|history| - 1]); p.version == s.previous && p.digest == s.digests[s.previous]
    ensures Chained(history + [s]) && Filed(history + [s], receipts) && PointsAtLast(Some(PointerOf(s)), history + [s])
  {
    var all := history + [s];
    forall i | 0 < i < |all| ensures Linked(all[i - 1], all[i]) {
      if i < |history| {
        assert all[i] == history[i] && all[i - 1] == history[i - 1];
      } else {
        assert all[i] == s && all[i - 1] == history[|history| - 1];
      }
    }
  }

  /** Taking back a new receipt leaves the receipts as they were. */
  lemma Withdrawn(receipts: map<string, Selection>, s: Selection)
    requires s.id !in receipts
    ensures receipts[s.id := s] - {s.id} == receipts
  {
  }

  class Lab {
    const ids: IdFunction
    /** The digest of each known version's content as it is now. */
    var contents: map<string, string>
    var receipts: map<string, Selection>
    var active: Option<Active>
    ghost var history: seq<Selection>

    constructor (ids: IdFunction, contents: map<string, string>)
      ensures Valid() && this.ids == ids && this.contents == contents && receipts == map[] && active == None
              && history == []
    {
      this.ids, this.contents := ids, contents;
      receipts, active, history := map[], None, [];
    }

    /** Receipts are filed under their own identifiers; the activations are chained and every one of
        them still has its receipt; the pointer is the last of them. */
    ghost predicate Valid()
      reads this
    {
      ReceiptsOk(receipts) && Chained(history) && Filed(history, receipts) && PointsAtLast(active, history)
    }

    method WriteSelection(s: Selection, fault: Fault) returns (error: Option<Error>)
      requires Valid() && ValidSelection(s)
      modifies this`receipts
      ensures Valid()
      ensures error == (if s.id in old(receipts) then Some(ReceiptExists)
                        else if fault.ReceiptFails? then Some(StorageFailed) else None)
      ensures receipts == if error.None? then old(receipts)[s.id := s] else old(receipts)
    {
      if s.id in receipts { return Some(ReceiptExists); }
      Withdrawn(receipts, s);
      receipts := receipts[s.id := s];
      if fault.ReceiptFails? {
        receipts := receipts - {s.id};
        return Some(StorageFailed);
      }
      return None;
    }

    /** The pointer moves only from the selection's previous version, at the content the selection
        names, or from nothing. */
    method ActivateSelection(s: Selection, fault: Fault) returns (error: Option<Error>)
      requires Valid() && ValidSelection(s) && s.id in receipts && receipts[s.id] == s
      modifies this`active, this`history
      ensures Valid()
      ensures error == ActivationError(s, contents, old(active), fault)
      ensures error.None? <==>
                && s.selected in contents && s.previous in contents && !fault.PointerFails?
                && contents[s.selected] == s.digests[s.selected] && contents[s.previous] == s.digests[s.previous]
                && (old(active).Some? ==>
                      old(active).value.version == s.previous && old(active).value.digest == s.digests[s.previous])
      ensures error.None? ==> active == Some(PointerOf(s)) && history == old(history) + [s]
      ensures error.Some? ==> active == old(active) && history == old(history)
    {
      if s.selected !in contents || s.previous !in contents { return Some(UnknownVersion); }
      if contents[s.selected] != s.digests[s.selected] || contents[s.previous] != s.digests[s.previous] {
        return Some(ContentChanged);
      }
      if active.Some? {
        if active.value.version != s.previous || active.value.digest != s.digests[s.previous] {
          return Some(StalePointer);
        }
      }
      if fault.PointerFails? { return Some(StorageFailed); }
      ChainGrows(history, s, receipts);
      active, history := Some(PointerOf(s)), history + [s];
      return None;
    }

    /** Receipt first, then the pointer; a failed activation takes the receipt back. */
    method ApplySelection(s: Selection, fault: Fault) returns (error: Option<Error>)
      requires Valid() && ValidSelection(s)
      modifies this`receipts, this`active, this`history
      ensures Valid() && Extends(old(receipts), receipts)
      ensures error == ApplyError(s, old(receipts), contents, old(active), fault)
      ensures error.None? ==>
                receipts == old(receipts)[s.id := s] && active == Some(PointerOf(s)) && history == old(history) + [s]
      ensures error.Some? ==> active == old(active) && history == old(history)
      ensures error.Some? ==> receipts == if error.value == Killed then old(receipts)[s.id := s] else old(receipts)
    {
      error := WriteSelection(s, fault);
      if error.Some? { return; }
      if fault.DiesBetween? { return Some(Killed); }
      error := ActivateSelection(s, fault);
      if error.Some? {
        Withdrawn(old(receipts), s);
        receipts := receipts - {s.id};
      }
    }

    method SelectVersion(previous: string, selected: string, evidence: seq<string>, reason: string, fault: Fault)
      returns (error: Option<Error>, id: string)
      requires Valid()
      modifies this`receipts, this`active, this`history
      ensures Valid() && Extends(old(receipts), receipts) && old(history) <= history
      ensures error == SelectError(ids, previous, selected, evidence, reason, old(receipts),
                                   contents, old(active), fault)
      ensures error.Some? ==> active == old(active) && history == old(history)
      ensures error.Some? && error.value != Killed ==> receipts == old(receipts)
      ensures error.None? ==>
                && previous in contents && selected in contents
                && var s := SelectionFor(ids, previous, selected, evidence, reason, Select,
                                         Digests(contents, previous, selected));
                   && id == s.id && receipts == old(receipts)[id := s]
                   && active == Some(Active(selected, contents[selected], id, Select))
    {
      id := "";
      if previous !in contents || selected !in contents { return Some(UnknownVersion), id; }
      var built := BuildSelection(ids, previous, selected, evidence, reason, Select,
                                  Digests(contents, previous, selected));
      if built.None? { return Some(InvalidSelection), id; }
      id := built.value.id;
      MatchingMoves(built.value, receipts, contents, active, fault);
      error := ApplySelection(built.value, fault);
    }

    /** A new receipt that leads back from a selection to its previous version. */
    method RollbackSelection(selectionId: string, evidence: seq<string>, reason: string, fault: Fault)
      returns (error: Option<Error>, id: string)
      requires Valid()
      modifies this`receipts, this`active, this`history
      ensures Valid() && Extends(old(receipts), receipts) && old(history) <= history
      ensures error == RollbackError(ids, selectionId, evidence, reason, old(receipts), contents, old(active), fault)
      ensures error.Some? ==> active == old(active) && history == old(history)
      ensures error.Some? && error.value != Killed ==> receipts == old(receipts)
      ensures error.None? ==> RolledBack(old(receipts), selectionId, receipts, id, active)
    {
      id := "";
      if selectionId !in receipts { return Some(ReceiptMissing), id; }
      var current := receipts[selectionId];
      if current.change == Rollback { return Some(CannotRollBackRollback), id; }
      if current.selected !in contents || current.previous !in contents { return Some(UnknownVersion), id; }
      if contents[current.selected] != current.digests[current.selected]
         || contents[current.previous] != current.digests[current.previous] {
        return Some(ContentChanged), id;
      }
      var built := BuildSelection(ids, current.selected, current.previous, evidence, reason, Rollback, current.digests);
      if built.None? { return Some(InvalidSelection), id; }
      id := built.value.id;
      MatchingMoves(built.value, receipts, contents, active, fault);
      error := ApplySelection(built.value, fault);
    }

    /** The contents of versions may change under the lab at any time. */
    method Tamper(contents: map<string, string>)
      requires Valid()
      modifies this`contents
      ensures Valid() && this.contents == contents
    {
      this.contents := contents;
    }
  }

  function ActivationError(s: Selection, contents: map<string, string>, active: Option<Active>,
                           fault: Fault): Option<Error>
    requires ValidSelection(s)
  {
    if s.selected !in contents || s.previous !in contents then Some(UnknownVersion)
    else if contents[s.selected] != s.digests[s.selected] || contents[s.previous] != s.digests[s.previous]
      then Some(ContentChanged)
    else if active.Some? && (active.value.version != s.previous || active.value.digest != s.digests[s.previous])
      then Some(StalePointer)
    else if fault.PointerFails? then Some(StorageFailed)
    else None
  }

  function ApplyError(s: Selection, receipts: map<string, Selection>, contents: map<string, string>,
                      active: Option<Active>,
                      fault: Fault): Option<Error>
    requires ValidSelection(s)
  {
    if s.id in receipts then Some(ReceiptExists)
    else if fault.ReceiptFails? then Some(StorageFailed)
    else if fault.DiesBetween? then Some(Killed)
    else ActivationError(s, contents, active, fault)
  }

  function Digests(contents: map<string, string>, previous: string, selected: string): map<string, string>
    requires previous in contents && selected in contents
  {
    map[previous := contents[previous], selected := contents[selected]]
  }

  /** The pointer may move on from a version at a content: it is there, or nowhere yet. */
  predicate PointerAt(active: Option<Active>, version: string, digest: string) {
    active.Some? ==> active.value.version == version && active.value.digest == digest
  }

  /** What is left to go wrong with a receipt that is well formed and matches the contents. */
  function MoveError(id: string, receipts: map<string, Selection>, atStart: bool, fault: Fault): Option<Error> {
    if id in receipts then Some(ReceiptExists)
    else match fault
      case ReceiptFails => Some(StorageFailed)
      case DiesBetween => Some(Killed)
      case PointerFails => Some(if atStart then StorageFailed else StalePointer)
      case NoFault => if atStart then None else Some(StalePointer)
  }

  lemma MatchingMoves(s: Selection, receipts: map<string, Selection>, contents: map<string, string>,
                      active: Option<Active>, fault: Fault)
    requires ValidSelection(s) && s.selected in contents && s.previous in contents
    requires contents[s.selected] == s.digests[s.selected] && contents[s.previous] == s.digests[s.previous]
    ensures ApplyError(s, receipts, contents, active, fault)
            == MoveError(s.id, receipts, PointerAt(active, s.previous, s.digests[s.previous]), fault)
  {
  }

  /** A selection takes the contents as it finds them, so it never meets changed content. */
  function SelectError(ids: IdFunction, previous: string, selected: string, evidence: seq<string>, reason: string,
                       receipts: map<string, Selection>, contents: map<string, string>, active: Option<Active>,
                       fault: Fault): Option<Error> {
    if previous !in contents || selected !in contents then Some(UnknownVersion)
    else if !Buildable(previous, selected, evidence, reason, Digests(contents, previous, selected))
      then Some(InvalidSelection)
    else MoveError(ids(previous, selected, evidence, Digests(contents, previous, selected)), receipts,
                   PointerAt(active, previous, contents[previous]), fault)
  }

  /** A rollback starts from a filed selection: besides its evidence and reason only the contents and
      the pointer can stand in its way. */
  function RollbackError(ids: IdFunction, selectionId: string, evidence: seq<string>, reason: string,
                         receipts: map<string, Selection>, contents: map<string, string>, active: Option<Active>,
                         fault: Fault): Option<Error>
    requires ReceiptsOk(receipts)
  {
    if selectionId !in receipts then Some(ReceiptMissing)
    else
      var s := receipts[selectionId];
      if s.change == Rollback then Some(CannotRollBackRollback)
      else if s.selected !in contents || s.previous !in contents then Some(UnknownVersion)
      else if contents[s.selected] != s.digests[s.selected] || contents[s.previous] != s.digests[s.previous]
        then Some(ContentChanged)
      else if !(1 <= |evidence| <= 240 && 1 <= |reason| <= 500) then Some(InvalidSelection)
      else MoveError(ids(s.selected, s.previous, evidence, s.digests), receipts,
                     PointerAt(active, s.selected, s.digests[s.selected]), fault)
  }

  /** Receipts are added, never changed or removed. */
  ghost predicate Extends(before: map<string, Selection>, after: map<string, Selection>) {
    forall id :: id in before ==> id in after && after[id] == before[id]
  }

  /** The pointer is back at the previous version of the selection, at the content it then had. */
  ghost predicate RolledBack(before: map<string, Selection>, selectionId: string, after: map<string, Selection>,
                             id: string, active: Option<Active>) {
    && selectionId in before && ValidSelection(before[selectionId]) && id in after && id !in before
    && var s := before[selectionId];
       active == Some(Active(s.previous, s.digests[s.previous], id, Rollback))
  }

  // ---- Every run ----

  datatype Operation =
    | DoSelect(previous: string, selected: string, evidence: seq<string>, reason: string, fault: Fault)
    | DoRollback(selectionId: string, evidence: seq<string>, reason: string, fault: Fault)
    | DoTamper(contents: map<string, string>)

  /** Whatever is selected, rolled back, tampered with or interrupted: every receipt ever published
      is still there unchanged, the pointer is backed by a receipt of the same version and content,
      and the activations form one chain. */
  method Drive(lab: Lab, operations: seq<Operation>)
    requires lab.Valid()
    modifies lab
    ensures lab.Valid() && Extends(old(lab.receipts), lab.receipts)
    ensures old(lab.history) <= lab.history
    ensures lab.active.Some? ==> Backed(lab.receipts, lab.active.value)
  {
    for i := 0 to |operations|
      invariant lab.Valid() && Extends(old(lab.receipts), lab.receipts) && old(lab.history) <= lab.history
    {
      match operations[i]
      case DoSelect(previous, selected, evidence, reason, fault) =>
        var _, _ := lab.SelectVersion(previous, selected, evidence, reason, fault);
      case DoRollback(selectionId, evidence, reason, fault) =>
        var _, _ := lab.RollbackSelection(selectionId, evidence, reason, fault);
      case DoTamper(contents) => lab.Tamper(contents);
    }
  }

  ghost predicate Backed(receipts: map<string, Selection>, a: Active) {
    && a.selection in receipts
    && var s := receipts[a.selection];
       ValidSelection(s) && s.selected == a.version && s.digests[s.selected] == a.digest && s.change == a.change
  }

  /** The selection can be made, and rolled back at once: both versions are known and both receipts
      well formed and new, and the pointer is at the previous version at its content, or nowhere. */
  predicate Returnable(ids: IdFunction, receipts: map<string, Selection>, contents: map<string, string>,
                       active: Option<Active>,
                       previous: string, selected: string, evidence: seq<string>, reason: string,
                       evidence': seq<string>, reason': string) {
    && previous in contents && selected in contents
    && var digests := Digests(contents, previous, selected);
       && Buildable(previous, selected, evidence, reason, digests) && 1 <= |evidence'| <= 240 && 1 <= |reason'| <= 500
       && PointerAt(active, previous, contents[previous])
       && var there, back := ids(previous, selected, evidence, digests), ids(selected, previous, evidence', digests);
          there !in receipts && back !in receipts && back != there
  }

  /** Selecting and rolling the selection back restores exactly the version and content the pointer
      had, if it had one; if it had none, it is left at the previous version named. */
  method SelectThenRollback(lab: Lab, previous: string, selected: string, evidence: seq<string>, reason: string,
                            evidence': seq<string>, reason': string) returns (done: bool)
    requires lab.Valid()
    modifies lab`receipts, lab`active, lab`history
    ensures lab.Valid() && Extends(old(lab.receipts), lab.receipts) && old(lab.history) <= lab.history
    ensures done <==> Returnable(lab.ids, old(lab.receipts), lab.contents, old(lab.active), previous, selected,
                                 evidence, reason, evidence', reason')
    ensures done ==> lab.active.Some? && lab.active.value.version == previous && lab.active.value.change == Rollback
    ensures done ==> previous in lab.contents && lab.active.value.digest == lab.contents[previous]
    ensures done && old(lab.active).Some? ==>
              lab.active.value.version == old(lab.active).value.version
              && lab.active.value.digest == old(lab.active).value.digest
  {
    var error, id := lab.SelectVersion(previous, selected, evidence, reason, NoFault);
    if error.Some? { return false; }
    error, id := lab.RollbackSelection(id, evidence', reason', NoFault);
    return error.None?;
  }

  /** The same versions, evidence and contents always get the same identifier, so a selection that
      was rolled back cannot be repeated on the same evidence. */
  method RepeatRefused(lab: Lab, s: Selection, change: Change, reason: string) returns (error: Option<Error>)
    requires lab.Valid() && s.id in lab.receipts && ValidSelection(s) && 1 <= |reason| <= 500
    requires s.id == lab.ids(s.previous, s.selected, s.evidence, s.digests)
    modifies lab`receipts, lab`active, lab`history
    ensures error == Some(ReceiptExists) && lab.receipts == old(lab.receipts) && lab.active == old(lab.active)
  {
    var again := BuildSelection(lab.ids, s.previous, s.selected, s.evidence, reason, change, s.digests);
    error := lab.ApplySelection(again.value, NoFault);
  }
}
