/** The model-view matrix stack of the drawing code: `mvPushMatrix` saves a
    copy of the current matrix, `mvPopMatrix` restores the last saved one or
    throws when nothing is saved. Matrices are opaque values of type `M`;
    `mat4.clone` makes the saved copy independent of later changes, which a
    value type gives for free. */
module MatrixStack {
  import opened Options

  /** The message `mvPopMatrix` throws on an empty stack. */
  const PopError: string := "Invalid popMatrix!"

  /** The current model-view matrix and the saved copies, oldest first. */
  datatype ViewState<M> = ViewState(mvMatrix: M, stack: seq<M>)

  /** `mvPushMatrix`: the stack grows by one and its top is the current
      matrix; the current matrix and the older entries stay. */
  function Pushed<M>(s: ViewState<M>): (r: ViewState<M>)
    ensures |r.stack| == |s.stack| + 1 && r.stack[|s.stack|] == s.mvMatrix
    ensures r.stack[..|s.stack|] == s.stack && r.mvMatrix == s.mvMatrix
  {
    ViewState(s.mvMatrix, s.stack + [s.mvMatrix])
  }

  /** `mvPopMatrix`: `None` when the stack is empty (the throw); otherwise the
      top becomes the current matrix and the stack shrinks by one. */
  function Popped<M>(s: ViewState<M>): (r: Option<ViewState<M>>)
    ensures r.None? <==> |s.stack| == 0
    ensures r.Some? ==> r.value.mvMatrix == s.stack[|s.stack| - 1] && |r.value.stack| == |s.stack| - 1
    ensures r.Some? ==> s.stack == r.value.stack + [r.value.mvMatrix]
  {
    if |s.stack| == 0 then None
    else Some(ViewState(s.stack[|s.stack| - 1], s.stack[..|s.stack| - 1]))
  }

  /** A pop right after a push restores the matrix and the stack. */
  lemma PopAfterPush<M>(s: ViewState<M>)
    ensures Popped(Pushed(s)) == Some(s)
  {
    assert (s.stack + [s.mvMatrix])[..|s.stack|] == s.stack;
  }

  /** A push, any change to the current matrix, then a pop: everything is as
      before the push, whatever the change was. */
  lemma PushChangePop<M>(s: ViewState<M>, m: M)
    ensures Popped(ViewState(m, Pushed(s).stack)) == Some(s)
  {
    assert (s.stack + [s.mvMatrix])[..|s.stack|] == s.stack;
  }

  class ModelView<M> {
    var mvMatrix: M
    var stack: seq<M>

    function State(): ViewState<M>
      reads this
    {
      ViewState(mvMatrix, stack)
    }

    constructor (m: M)
      ensures mvMatrix == m && stack == []
    {
      mvMatrix := m;
      stack := [];
    }

    /** `mvPushMatrix`. */
    method Push()
      modifies this
      ensures State() == Pushed(old(State()))
    {
      var copy := mvMatrix;
      stack := stack + [copy];
    }

    /** `mvPopMatrix`: returns the thrown message, if any. */
    method Pop() returns (thrown: Option<string>)
      modifies this
      ensures thrown.Some? <==> Popped(old(State())).None?
      ensures thrown.Some? ==> thrown.value == PopError && State() == old(State())
      ensures thrown.None? ==> Popped(old(State())) == Some(State())
    {
      if |stack| == 0 {
        return Some(PopError);
      }
      mvMatrix := stack[|stack| - 1];
      stack := stack[..|stack| - 1];
      thrown := None;
    }
  }
}
