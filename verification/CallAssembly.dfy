/**
 * Reassembling one streamed completion (streamCompletion in
 * apps/server/src/assistant/assistant.service.ts): content is appended, tool-call fragments are
 * collected per index, and the calls come out in index order.
 */
module CallAssembly {
  import opened Wrappers
  import opened JsText
  import opened LlmStream

  /** A tool call as the loop keeps it; `args` is what parsing the argument text gave. */
  datatype CapturedCall = CapturedCall(id: string, name: string, args: string)

  datatype Partial = Partial(id: string, name: string, args: string)

  const EMPTY_PARTIAL := Partial("", "", "")

  // ---------------------------------------------------------------- the reference: one index at a time

  /** The content of a completion: its content deltas, one after the other. */
  function ContentOf(deltas: seq<Delta>): string {
    if deltas == [] then ""
    else
      var n := |deltas| - 1;
      ContentOf(deltas[..n]) + if deltas[n].Content? then deltas[n].text else ""
  }

  /** The fragments of one index, in order of arrival. */
  function FragmentsOf(deltas: seq<Delta>, index: int): seq<Fragment> {
    if deltas == [] then []
    else
      var n := |deltas| - 1;
      FragmentsOf(deltas[..n], index)
        + if deltas[n].ToolCall? && deltas[n].fragment.index == index then [deltas[n].fragment] else []
  }

  /** The indexes for which some fragment arrived. */
  function Indexes(deltas: seq<Delta>): set<int> {
    if deltas == [] then {}
    else
      var n := |deltas| - 1;
      Indexes(deltas[..n]) + if deltas[n].ToolCall? then {deltas[n].fragment.index} else {}
  }

  /** All argument pieces, concatenated. */
  function ArgsText(fragments: seq<Fragment>): string {
    if fragments == [] then ""
    else ArgsText(fragments[..|fragments| - 1]) + fragments[|fragments| - 1].args
  }

  /** The last id given, or none. */
  function LastId(fragments: seq<Fragment>): string {
    if fragments == [] then ""
    else
      var n := |fragments| - 1;
      if fragments[n].id != "" then fragments[n].id else LastId(fragments[..n])
  }

  function LastName(fragments: seq<Fragment>): string {
    if fragments == [] then ""
    else
      var n := |fragments| - 1;
      if fragments[n].name != "" then fragments[n].name else LastName(fragments[..n])
  }

  function AssembledFrom(fragments: seq<Fragment>): Partial {
    Partial(LastId(fragments), LastName(fragments), ArgsText(fragments))
  }

  // ---------------------------------------------------------------- index order

  ghost predicate StrictlyAscending(order: seq<int>) {
    forall i, j :: 0 <= i < j < |order| ==> order[i] < order[j]
  }

  /** Put a new number in its place. */
  function Insert(order: seq<int>, x: int): (r: seq<int>)
    requires StrictlyAscending(order) && x !in order
    ensures StrictlyAscending(r)
    ensures forall y :: y in r <==> y in order || y == x
  {
    if order == [] then [x]
    else if x < order[0] then
      assert forall i :: 0 <= i < |order| ==> order[0] <= order[i];
      [x] + order
    else
      var rest := Insert(order[1..], x);
      assert order[0] in order && order[0] < x;
      assert forall y :: y in order[1..] ==> order[0] < y;
      assert forall i :: 0 <= i < |rest| ==> rest[i] in rest;
      [order[0]] + rest
  }

  method SortKeys(keys: set<int>) returns (order: seq<int>)
    ensures StrictlyAscending(order) && forall x :: x in order <==> x in keys
  {
    order := [];
    var todo := keys;
    while todo != {}
      invariant StrictlyAscending(order)
      invariant todo <= keys && forall x :: x in order <==> x in keys && x !in todo
      decreases todo
    {
      assert exists x :: x in todo by {
        if forall x :: x !in todo { assert false; }
      }
      var x :| x in todo;
      order := Insert(order, x);
      todo := todo - {x};
    }
  }

  function CallOf(index: int, p: Partial, parseArgs: string -> string): CapturedCall {
    CapturedCall(if p.id != "" then p.id else "call_" + IntText(index), p.name, parseArgs(p.args))
  }

  function CallsFrom(order: seq<int>, acc: map<int, Partial>, parseArgs: string -> string): (calls: seq<CapturedCall>)
    requires forall i :: i in order ==> i in acc
    ensures |calls| == |order|
    ensures forall k :: 0 <= k < |order| ==> calls[k] == CallOf(order[k], acc[order[k]], parseArgs)
  {
    if order == [] then [] else [CallOf(order[0], acc[order[0]], parseArgs)] + CallsFrom(order[1..], acc, parseArgs)
  }

  // ---------------------------------------------------------------- the loop

  /**
   * Fold the deltas of one completion. However the indexes interleave, each call is assembled from
   * its own index's fragments alone, in order, and the calls come out by ascending index.
   */
  method StreamCompletion(deltas: seq<Delta>, parseArgs: string -> string)
    returns (content: string, calls: seq<CapturedCall>, ghost order: seq<int>)
    ensures content == ContentOf(deltas)
    ensures StrictlyAscending(order) && forall x :: x in order <==> x in Indexes(deltas)
    ensures |calls| == |order|
    ensures forall k :: 0 <= k < |order| ==>
              calls[k] == CallOf(order[k], AssembledFrom(FragmentsOf(deltas, order[k])), parseArgs)
  {
    content := "";
    var acc: map<int, Partial> := map[];
    for n := 0 to |deltas|
      invariant content == ContentOf(deltas[..n])
      invariant Collected(acc, deltas[..n])
    {
      var delta := deltas[n];
      ghost var before := deltas[..n];
      assert deltas[..n + 1] == before + [delta];
      match delta {
        case Content(text) =>
          content := content + text;
          CollectedOther(acc, before, delta);
        case ToolCall(f) =>
          CollectedFragment(acc, before, f);
          var cur := if f.index in acc then acc[f.index] else EMPTY_PARTIAL;
          if f.id != "" { cur := cur.(id := f.id); }
          if f.name != "" { cur := cur.(name := f.name); }
          if f.args != "" { cur := cur.(args := cur.args + f.args); }
          acc := acc[f.index := cur];
        case Finish(_) =>
          CollectedOther(acc, before, delta);
      }
    }
    assert deltas[..|deltas|] == deltas;
    var sorted := SortKeys(acc.Keys);
    calls := CallsFrom(sorted, acc, parseArgs);
    order := sorted;
  }

  /** The accumulator holds, for every index seen, what its own fragments assemble to. */
  ghost predicate Collected(acc: map<int, Partial>, deltas: seq<Delta>) {
    && acc.Keys == Indexes(deltas)
    && forall i :: i in acc ==> acc[i] == AssembledFrom(FragmentsOf(deltas, i))
  }

  lemma {:induction false} FragmentsSnoc(deltas: seq<Delta>, d: Delta, index: int)
    ensures FragmentsOf(deltas + [d], index)
         == if d.ToolCall? && d.fragment.index == index then FragmentsOf(deltas, index) + [d.fragment]
            else FragmentsOf(deltas, index)
  {
    assert (deltas + [d])[..|deltas|] == deltas;
    assert FragmentsOf(deltas, index) + [] == FragmentsOf(deltas, index);
  }

  lemma {:induction false} CollectedOther(acc: map<int, Partial>, deltas: seq<Delta>, d: Delta)
    requires Collected(acc, deltas) && !d.ToolCall?
    ensures Collected(acc, deltas + [d])
    ensures ContentOf(deltas + [d]) == ContentOf(deltas) + if d.Content? then d.text else ""
  {
    assert (deltas + [d])[..|deltas|] == deltas;
    forall i | i in acc ensures acc[i] == AssembledFrom(FragmentsOf(deltas + [d], i)) {
      FragmentsSnoc(deltas, d, i);
    }
  }

  lemma {:induction false} CollectedFragment(acc: map<int, Partial>, deltas: seq<Delta>, f: Fragment)
    requires Collected(acc, deltas)
    ensures var cur := if f.index in acc then acc[f.index] else EMPTY_PARTIAL;
            Collected(acc[f.index := With(cur, f)], deltas + [ToolCall(f)])
    ensures ContentOf(deltas + [ToolCall(f)]) == ContentOf(deltas)
  {
    var all := deltas + [ToolCall(f)];
    assert all[..|deltas|] == deltas;
    assert ContentOf(deltas) + "" == ContentOf(deltas);
    var cur := if f.index in acc then acc[f.index] else EMPTY_PARTIAL;
    var acc' := acc[f.index := With(cur, f)];
    forall i | i in acc' ensures acc'[i] == AssembledFrom(FragmentsOf(all, i)) {
      FragmentsSnoc(deltas, ToolCall(f), i);
      if i == f.index {
        NoFragmentsUnseen(deltas, i);
        AssembleOneMore(FragmentsOf(deltas, i), f);
        assert AssembledFrom([]) == EMPTY_PARTIAL;
      }
    }
  }

  function With(cur: Partial, f: Fragment): Partial {
    Partial(if f.id != "" then f.id else cur.id, if f.name != "" then f.name else cur.name, cur.args + f.args)
  }

  lemma {:induction false} AssembleOneMore(fragments: seq<Fragment>, f: Fragment)
    ensures AssembledFrom(fragments + [f]) == With(AssembledFrom(fragments), f)
  {
    assert (fragments + [f])[..|fragments|] == fragments;
  }

  lemma {:induction false} NoFragmentsUnseen(deltas: seq<Delta>, index: int)
    ensures index !in Indexes(deltas) ==> FragmentsOf(deltas, index) == []
  {
    if deltas != [] {
      var n := |deltas| - 1;
      NoFragmentsUnseen(deltas[..n], index);
    }
  }
}
