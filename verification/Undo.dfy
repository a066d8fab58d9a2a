/** Checkpoints, undo and redo (src/agent/undo.rs, src/agent/commands.rs). */
module Undo {
  import opened Wrappers
  import opened Sequences
  import opened Chat
  import opened Conversation

  const DEFAULT_MAX_CHECKPOINTS: nat := 20

  datatype Checkpoint = Checkpoint(id: nat, turnNumber: nat, messages: seq<ChatMessage>)

  datatype History = History(undoStack: seq<Checkpoint>, redoStack: seq<Checkpoint>, maxCheckpoints: nat)

  const EMPTY_HISTORY: History := History([], [], DEFAULT_MAX_CHECKPOINTS)

  /** A new checkpoint starts a new branch (no redo) and pushes out the oldest one past the limit. */
  function Checkpointed(h: History, c: Checkpoint): History {
    History(LastN(h.undoStack + [c], h.maxCheckpoints), [], h.maxCheckpoints)
  }

  /** `undo` saves the current state for redo and leaves the checkpoint it returns on the stack. */
  function UndoSaved(h: History, current: Checkpoint): History {
    if h.undoStack == [] then h else h.(redoStack := h.redoStack + [current])
  }

  function Redone(h: History): History {
    if h.redoStack == [] then h else h.(redoStack := h.redoStack[..|h.redoStack| - 1])
  }

  /** Position of the first checkpoint with the given id, counting from `i`. */
  function Position(s: seq<Checkpoint>, id: nat, i: nat): (p: Option<nat>)
    requires i <= |s|
    ensures p.Some? ==> i <= p.value < |s| && s[p.value].id == id && forall j | i <= j < p.value :: s[j].id != id
    ensures p.None? ==> forall j | i <= j < |s| :: s[j].id != id
    decreases |s| - i
  {
    if i == |s| then None else if s[i].id == id then Some(i) else Position(s, id, i + 1)
  }

  /** `restore` drops the checkpoint it returns and everything after it. */
  function RestoredTo(h: History, id: nat): History {
    var p := Position(h.undoStack, id, 0);
    if p.None? then h else History(h.undoStack[..p.value], [], h.maxCheckpoints)
  }

  // ---------- every history of operations ----------

  datatype HistoryOp =
    | Mark(checkpoint: Checkpoint)
    | SaveUndo(current: Checkpoint)
    | PopRedo
    | RestoreTo(id: nat)
    | ClearAll

  function ApplyOp(h: History, op: HistoryOp): History {
    match op
    case Mark(c) => Checkpointed(h, c)
    case SaveUndo(current) => UndoSaved(h, current)
    case PopRedo => Redone(h)
    case RestoreTo(id) => RestoredTo(h, id)
    case ClearAll => History([], [], h.maxCheckpoints)
  }

  function ApplyOps(h: History, ops: seq<HistoryOp>): History {
    if ops == [] then h else ApplyOp(ApplyOps(h, ops[..|ops| - 1]), ops[|ops| - 1])
  }

  function Marks(ops: seq<HistoryOp>): seq<Checkpoint> {
    if ops == [] then []
    else Marks(ops[..|ops| - 1]) + (if ops[|ops| - 1].Mark? then [ops[|ops| - 1].checkpoint] else [])
  }

  predicate HistoryOk(h: History) {
    && |h.undoStack| <= h.maxCheckpoints
    && (h.redoStack != [] ==> h.undoStack != [])
  }

  predicate OnlyMarksUndosRedos(ops: seq<HistoryOp>) {
    forall i | 0 <= i < |ops| :: ops[i].Mark? || ops[i].SaveUndo? || ops[i].PopRedo?
  }

  /** The limit is never exceeded, and a redo is only ever available when an undo is. */
  lemma {:induction false} HistoryStaysOk(max: nat, ops: seq<HistoryOp>)
    ensures HistoryOk(ApplyOps(History([], [], max), ops))
    ensures ApplyOps(History([], [], max), ops).maxCheckpoints == max
  {
    if ops != [] {
      HistoryStaysOk(max, ops[..|ops| - 1]);
    }
  }

  /** Undo and redo never touch the undo stack: it holds exactly the most recent checkpoints taken. */
  lemma {:induction false} UndoStackIsMostRecent(max: nat, ops: seq<HistoryOp>)
    requires OnlyMarksUndosRedos(ops)
    ensures ApplyOps(History([], [], max), ops).undoStack == LastN(Marks(ops), max)
  {
    if ops != [] {
      UndoStackIsMostRecent(max, ops[..|ops| - 1]);
      HistoryStaysOk(max, ops[..|ops| - 1]);
    }
  }

  /** The checkpoints taken that no restore or clear has dropped: restoring one that is still on the stack
      drops it and everything newer. */
  function Survivors(max: nat, ops: seq<HistoryOp>): seq<Checkpoint> {
    if ops == [] then []
    else
      var front := ops[..|ops| - 1];
      var before := Survivors(max, front);
      match ops[|ops| - 1]
      case Mark(c) => before + [c]
      case RestoreTo(id) =>
        var stack := ApplyOps(History([], [], max), front).undoStack;
        var p := Position(stack, id, 0);
        if p.Some? && |stack| - p.value <= |before| then before[..|before| - (|stack| - p.value)] else before
      case ClearAll => []
      case _ => before
  }

  predicate IsSuffix<T(==)>(a: seq<T>, b: seq<T>) {
    |a| <= |b| && a == b[|b| - |a|..]
  }

  lemma SuffixSnoc<T>(a: seq<T>, b: seq<T>, x: T, n: nat)
    requires IsSuffix(a, b)
    ensures IsSuffix(LastN(a + [x], n), b + [x])
  {
  }

  lemma SuffixCut<T>(a: seq<T>, b: seq<T>, p: nat)
    requires IsSuffix(a, b) && p <= |a|
    ensures IsSuffix(a[..p], b[..|b| - (|a| - p)])
  {
  }

  /** Whatever the operations, the stack is the newest of the surviving checkpoints, at most the limit. */
  lemma {:induction false} UndoStackIsNewestSurvivors(max: nat, ops: seq<HistoryOp>)
    ensures var stack := ApplyOps(History([], [], max), ops).undoStack;
            |stack| <= max && IsSuffix(stack, Survivors(max, ops))
  {
    HistoryStaysOk(max, ops);
    if ops != [] {
      var front, op := ops[..|ops| - 1], ops[|ops| - 1];
      var h, before := ApplyOps(History([], [], max), front), Survivors(max, front);
      UndoStackIsNewestSurvivors(max, front);
      HistoryStaysOk(max, front);
      if op.Mark? {
        SuffixSnoc(h.undoStack, before, op.checkpoint, max);
      } else if op.RestoreTo? {
        var p := Position(h.undoStack, op.id, 0);
        if p.Some? {
          SuffixCut(h.undoStack, before, p.value);
        }
      }
    }
  }

  // ---------- undo and redo of a whole thread ----------

  datatype Timeline = Timeline(turns: seq<Turn>, history: History, nextId: nat)

  /** `process_undo`: save the current messages for redo, rebuild from the newest checkpoint. */
  function UndoStep(t: Timeline): Timeline {
    if t.history.undoStack == [] then t
    else
      var target := t.history.undoStack[|t.history.undoStack| - 1];
      Timeline(Rebuilt(target.messages, 0),
               UndoSaved(t.history, Checkpoint(t.nextId, |t.turns| + 1, Messages(t.turns))),
               t.nextId + 1)
  }

  /** `process_redo`: rebuild from the state saved last. */
  function RedoStep(t: Timeline): Timeline {
    if t.history.redoStack == [] then t
    else
      t.(turns := Rebuilt(t.history.redoStack[|t.history.redoStack| - 1].messages, 0), history := Redone(t.history))
  }

  function UndoTimes(t: Timeline, k: nat): Timeline {
    if k == 0 then t else UndoStep(UndoTimes(t, k - 1))
  }

  function RedoTimes(t: Timeline, k: nat): Timeline
    decreases k
  {
    if k == 0 then t else RedoTimes(RedoStep(t), k - 1)
  }

  /** Same printed messages, same stacks. */
  predicate Same(a: Timeline, b: Timeline) {
    Messages(a.turns) == Messages(b.turns) && a.history == b.history
  }

  lemma RedoUndoesUndo(t: Timeline)
    requires HistoryOk(t.history)
    ensures Same(RedoStep(UndoStep(t)), t)
  {
    if t.history.undoStack != [] {
      var u := UndoStep(t);
      assert u.history.redoStack[..|u.history.redoStack| - 1] == t.history.redoStack;
      RestoreThenPrintIdempotent([], t.turns);
    }
  }

  lemma {:induction false} RedoTimesRespectsSame(a: Timeline, b: Timeline, k: nat)
    requires Same(a, b)
    ensures Same(RedoTimes(a, k), RedoTimes(b, k))
    decreases k
  {
    if k > 0 {
      RedoTimesRespectsSame(RedoStep(a), RedoStep(b), k - 1);
    }
  }

  lemma {:induction false} UndoTimesKeepsOk(t: Timeline, k: nat)
    requires HistoryOk(t.history)
    ensures HistoryOk(UndoTimes(t, k).history)
    ensures UndoTimes(t, k).history.undoStack == t.history.undoStack
  {
    if k > 0 {
      UndoTimesKeepsOk(t, k - 1);
    }
  }

  lemma SameTrans(a: Timeline, b: Timeline, c: Timeline)
    requires Same(a, b) && Same(b, c)
    ensures Same(a, c)
  {
  }

  lemma RedoFirst(t: Timeline, k: nat)
    requires k > 0
    ensures RedoTimes(t, k) == RedoTimes(RedoStep(t), k - 1)
  {
  }

  lemma {:induction false} RedosAfterUndo(t: Timeline, k: nat)
    requires HistoryOk(t.history) && k > 0
    ensures Same(RedoTimes(UndoStep(t), k), RedoTimes(t, k - 1))
  {
    RedoFirst(UndoStep(t), k);
    RedoUndoesUndo(t);
    RedoTimesRespectsSame(RedoStep(UndoStep(t)), t, k - 1);
  }

  /** Any k undos followed by k redos restore the messages and leave both stacks as they were. */
  lemma {:induction false} UndosThenRedos(t: Timeline, k: nat)
    requires HistoryOk(t.history)
    ensures Same(RedoTimes(UndoTimes(t, k), k), t)
  {
    if k > 0 {
      var before := UndoTimes(t, k - 1);
      UndoTimesKeepsOk(t, k - 1);
      RedosAfterUndo(before, k);
      UndosThenRedos(t, k - 1);
      SameTrans(RedoTimes(UndoStep(before), k), RedoTimes(before, k - 1), t);
    }
  }

  /** Because the checkpoint stays on the stack, every further undo lands on the same one. */
  lemma {:induction false} RepeatedUndoStaysPut(t: Timeline, k: nat)
    requires HistoryOk(t.history) && t.history.undoStack != [] && k > 0
    ensures UndoTimes(t, k).turns == Rebuilt(t.history.undoStack[|t.history.undoStack| - 1].messages, 0)
  {
    UndoTimesKeepsOk(t, k - 1);
  }

  predicate Printed(ms: seq<ChatMessage>) {
    Messages(Rebuilt(ms, 0)) == ms
  }

  /** Undoing k times reaches the k-th newest checkpoint exactly when that one holds the newest one's messages. */
  lemma UndoReachesOlderCheckpointIff(t: Timeline, k: nat)
    requires HistoryOk(t.history) && 0 < k <= |t.history.undoStack|
    requires forall c | c in t.history.undoStack :: Printed(c.messages)
    ensures var stack := t.history.undoStack;
            Messages(UndoTimes(t, k).turns) == stack[|stack| - k].messages
            <==> stack[|stack| - k].messages == stack[|stack| - 1].messages
  {
    RepeatedUndoStaysPut(t, k);
    assert t.history.undoStack[|t.history.undoStack| - 1] in t.history.undoStack;
  }

  // ---------- the manager object ----------

  class UndoManager {
    var undoStack: seq<Checkpoint>
    var redoStack: seq<Checkpoint>
    var maxCheckpoints: nat

    constructor (max: nat)
      ensures View() == History([], [], max)
    {
      undoStack, redoStack, maxCheckpoints := [], [], max;
    }

    constructor Load(h: History)
      ensures View() == h
    {
      undoStack, redoStack, maxCheckpoints := h.undoStack, h.redoStack, h.maxCheckpoints;
    }

    function View(): History
      reads this
    {
      History(undoStack, redoStack, maxCheckpoints)
    }

    method TakeCheckpoint(c: Checkpoint)
      modifies this
      ensures View() == Checkpointed(old(View()), c)
      ensures HistoryOk(old(View())) ==> HistoryOk(View())
    {
      redoStack := [];
      undoStack := undoStack + [c];
      ghost var all := undoStack;
      while |undoStack| > maxCheckpoints
        invariant maxCheckpoints == old(maxCheckpoints) && redoStack == []
        invariant |undoStack| <= |all| && undoStack == all[|all| - |undoStack|..]
        invariant |all| >= maxCheckpoints ==> |undoStack| >= maxCheckpoints
        invariant |all| <= maxCheckpoints ==> undoStack == all
      {
        undoStack := undoStack[1..];
      }
    }

    method Undo(current: Checkpoint) returns (target: Option<Checkpoint>)
      modifies this`redoStack
      ensures View() == UndoSaved(old(View()), current)
      ensures HistoryOk(old(View())) ==> HistoryOk(View())
      ensures target == if undoStack == [] then None else Some(undoStack[|undoStack| - 1])
    {
      if undoStack == [] {
        return None;
      }
      redoStack := redoStack + [current];
      target := Some(undoStack[|undoStack| - 1]);
    }

    method Redo() returns (target: Option<Checkpoint>)
      modifies this`redoStack
      ensures View() == Redone(old(View()))
      ensures HistoryOk(old(View())) ==> HistoryOk(View())
      ensures target == if old(redoStack) == [] then None else Some(old(redoStack)[|old(redoStack)| - 1])
    {
      if redoStack == [] {
        return None;
      }
      target := Some(redoStack[|redoStack| - 1]);
      redoStack := redoStack[..|redoStack| - 1];
    }

    method Restore(id: nat) returns (target: Option<Checkpoint>)
      modifies this`undoStack, this`redoStack
      ensures View() == RestoredTo(old(View()), id)
      ensures HistoryOk(old(View())) ==> HistoryOk(View())
      ensures target.None? <==> forall c | c in old(undoStack) :: c.id != id
      ensures target.Some? ==> target.value.id == id && old(undoStack)[..|undoStack| + 1] == undoStack + [target.value]
    {
      var pos := Position(undoStack, id, 0);
      if pos.None? {
        return None;
      }
      ghost var all := undoStack;
      assert all[pos.value] in all;
      redoStack := [];
      while |undoStack| > pos.value + 1
        invariant redoStack == [] && pos.value + 1 <= |undoStack| <= |all| && undoStack == all[..|undoStack|]
      {
        undoStack := undoStack[..|undoStack| - 1];
      }
      target := Some(undoStack[|undoStack| - 1]);
      undoStack := undoStack[..|undoStack| - 1];
      assert undoStack == all[..pos.value];
    }

    method Clear()
      modifies this`undoStack, this`redoStack
      ensures View() == History([], [], old(maxCheckpoints))
    {
      undoStack, redoStack := [], [];
    }
  }
}
