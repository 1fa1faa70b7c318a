// The owners of physical actions: which action of which root, executed or undone.
module Owners {

  function Execution(rootId: string, id: string): string {
    "execution:" + rootId + ":" + id
  }

  function Undo(rootId: string, id: string): string {
    "undo:" + rootId + ":" + id
  }

  lemma ExecutionInjective(rootId: string, id: string, id': string)
    requires Execution(rootId, id) == Execution(rootId, id')
    ensures id == id'
  {
    var front := "execution:" + rootId + ":";
    assert (front + id)[|front|..] == id && (front + id')[|front|..] == id';
  }

  lemma UndoInjective(rootId: string, id: string, id': string)
    requires Undo(rootId, id) == Undo(rootId, id')
    ensures id == id'
  {
    var front := "undo:" + rootId + ":";
    assert (front + id)[|front|..] == id && (front + id')[|front|..] == id';
  }

  lemma ExecutionIsNoUndo(rootId: string, id: string, id': string)
    ensures Execution(rootId, id) != Undo(rootId, id')
  {
    assert Execution(rootId, id)[0] == 'e' && Undo(rootId, id')[0] == 'u';
  }
}
