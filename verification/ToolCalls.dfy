/** Assembling tool calls from streamed chunks, as both chat providers do. */
module ToolCalls {
  import opened Text

  /** A piece of a tool call; absent fields are empty, and an absent index is 0. */
  datatype CallChunk = CallChunk(index: Option<nat>, id: string, name: string, args: string)

  datatype Chunk = Chunk(calls: seq<CallChunk>, content: string, responseId: string)

  datatype Call = Call(index: nat, id: string, name: string, args: string)

  /** The arguments of an emitted call: the assembled JSON text, or the empty object. */
  datatype Arguments = EmptyObject | Parsed(json: string)

  datatype Emitted = TextPart(content: string, responseId: string) | ToolCall(id: string, name: string, arguments: Arguments) | Done

  function IndexOf(c: CallChunk): nat {
    match c.index
    case None => 0
    case Some(i) => i
  }

  // ----- What is to be assembled, per index -----

  function Indexes(cs: seq<CallChunk>): (ix: seq<nat>)
    ensures |ix| == |cs| && forall i :: 0 <= i < |cs| ==> ix[i] == IndexOf(cs[i])
  {
    seq(|cs|, i requires 0 <= i < |cs| => IndexOf(cs[i]))
  }

  /** All argument pieces of one index, joined. */
  function ArgsOf(cs: seq<CallChunk>, index: nat): string {
    if |cs| == 0 then ""
    else
      var c := cs[|cs| - 1];
      ArgsOf(cs[..|cs| - 1], index) + if IndexOf(c) == index then c.args else ""
  }

  /** The last id given for an index, if any. */
  function LastId(cs: seq<CallChunk>, index: nat): string {
    if |cs| == 0 then ""
    else
      var c := cs[|cs| - 1];
      if IndexOf(c) == index && c.id != "" then c.id else LastId(cs[..|cs| - 1], index)
  }

  function LastName(cs: seq<CallChunk>, index: nat): string {
    if |cs| == 0 then ""
    else
      var c := cs[|cs| - 1];
      if IndexOf(c) == index && c.name != "" then c.name else LastName(cs[..|cs| - 1], index)
  }

  function CallAt(cs: seq<CallChunk>, index: nat): Call {
    Call(index, LastId(cs, index), LastName(cs, index), ArgsOf(cs, index))
  }

  /** One call per index, in the order in which the indexes first appear. */
  function Assembled(cs: seq<CallChunk>): (r: seq<Call>)
    ensures var ix := Distinct(Indexes(cs));
            |r| == |ix| && forall i :: 0 <= i < |r| ==> r[i] == CallAt(cs, ix[i]) && r[i].index == ix[i]
  {
    var ix := Distinct(Indexes(cs));
    seq(|ix|, i requires 0 <= i < |ix| => CallAt(cs, ix[i]))
  }

  function AllCalls(stream: seq<Chunk>): seq<CallChunk> {
    if |stream| == 0 then [] else AllCalls(stream[..|stream| - 1]) + stream[|stream| - 1].calls
  }

  function Texts(stream: seq<Chunk>): seq<Emitted> {
    if |stream| == 0 then []
    else
      var c := stream[|stream| - 1];
      Texts(stream[..|stream| - 1]) + if c.content != "" then [TextPart(c.content, c.responseId)] else []
  }

  function ArgumentsOf(args: string, parses: string -> bool): Arguments {
    if args != "" && parses(args) then Parsed(args) else EmptyObject
  }

  function Calls(calls: seq<Call>, parses: string -> bool): seq<Emitted> {
    if |calls| == 0 then []
    else
      var c := calls[|calls| - 1];
      Calls(calls[..|calls| - 1], parses) + if c.name != "" then [ToolCall(c.id, c.name, ArgumentsOf(c.args, parses))] else []
  }

  // ----- The same, in the stream's own terms -----

  /** A piece belongs to the index it gives; without one it belongs to the first call. */
  predicate IsPieceOf(c: CallChunk, index: nat) {
    c.index == Some(index) || (c.index == None && index == 0)
  }

  lemma ArgsStep(cs: seq<CallChunk>, c: CallChunk, index: nat)
    ensures ArgsOf(cs + [c], index) == ArgsOf(cs, index) + if IsPieceOf(c, index) then c.args else ""
  {
    assert (cs + [c])[..|cs|] == cs;
  }

  /** One piece contributes its arguments to its own index only. */
  lemma ArgsOne(c: CallChunk, index: nat)
    ensures ArgsOf([], index) == "" && ArgsOf([c], index) == if IsPieceOf(c, index) then c.args else ""
  {
    ArgsStep([], c, index);
    assert [] + [c] == [c];
  }

  /** Argument pieces join in order: nothing is lost, repeated or taken from another index. */
  lemma {:induction false} ArgsConcat(a: seq<CallChunk>, b: seq<CallChunk>, index: nat)
    ensures ArgsOf(a + b, index) == ArgsOf(a, index) + ArgsOf(b, index)
  {
    if |b| == 0 {
      assert a + b == a && ArgsOf(b, index) == "";
    } else {
      var init, last := b[..|b| - 1], b[|b| - 1];
      ArgsConcat(a, init, index);
      ArgsStep(a + init, last, index);
      ArgsStep(init, last, index);
      hide ArgsOf;
      assert b == init + [last];
      Assoc(a, init, [last]);
      Assoc(ArgsOf(a, index), ArgsOf(init, index), if IsPieceOf(last, index) then last.args else "");
    }
  }

  /** The id is that of the last piece of the index that has one. */
  lemma {:induction false} LastIdExact(cs: seq<CallChunk>, index: nat, id: string)
    requires id != ""
    ensures LastId(cs, index) == id <==>
            exists i :: 0 <= i < |cs| && IsPieceOf(cs[i], index) && cs[i].id == id &&
                        forall j :: i < j < |cs| && IsPieceOf(cs[j], index) ==> cs[j].id == ""
  {
    if |cs| > 0 {
      var init, last := cs[..|cs| - 1], cs[|cs| - 1];
      LastIdExact(init, index, id);
      assert forall i :: 0 <= i < |init| ==> init[i] == cs[i];
      hide LastId, IsPieceOf;
      LastIdStep(cs, index);
      if LastId(init, index) == id {
        var i :| 0 <= i < |init| && IsPieceOf(init[i], index) && init[i].id == id &&
                 forall j :: i < j < |init| && IsPieceOf(init[j], index) ==> init[j].id == "";
        assert cs[i] == init[i];
      }
    }
  }

  lemma LastIdStep(cs: seq<CallChunk>, index: nat)
    requires |cs| > 0
    ensures var last := cs[|cs| - 1];
            LastId(cs, index) == if IsPieceOf(last, index) && last.id != "" then last.id else LastId(cs[..|cs| - 1], index)
  {}

  /** So is the name. */
  lemma {:induction false} LastNameExact(cs: seq<CallChunk>, index: nat, name: string)
    requires name != ""
    ensures LastName(cs, index) == name <==>
            exists i :: 0 <= i < |cs| && IsPieceOf(cs[i], index) && cs[i].name == name &&
                        forall j :: i < j < |cs| && IsPieceOf(cs[j], index) ==> cs[j].name == ""
  {
    if |cs| > 0 {
      var init, last := cs[..|cs| - 1], cs[|cs| - 1];
      LastNameExact(init, index, name);
      assert forall i :: 0 <= i < |init| ==> init[i] == cs[i];
      hide LastName, IsPieceOf;
      LastNameStep(cs, index);
      if LastName(init, index) == name {
        var i :| 0 <= i < |init| && IsPieceOf(init[i], index) && init[i].name == name &&
                 forall j :: i < j < |init| && IsPieceOf(init[j], index) ==> init[j].name == "";
        assert cs[i] == init[i];
      }
    }
  }

  lemma LastNameStep(cs: seq<CallChunk>, index: nat)
    requires |cs| > 0
    ensures var last := cs[|cs| - 1];
            LastName(cs, index) == if IsPieceOf(last, index) && last.name != "" then last.name else LastName(cs[..|cs| - 1], index)
  {}

  /** Where an index first appears; |cs| when it does not. */
  function FirstPiece(cs: seq<CallChunk>, index: nat): (i: nat)
    ensures i <= |cs| && (i < |cs| ==> IsPieceOf(cs[i], index)) && forall j :: 0 <= j < i ==> !IsPieceOf(cs[j], index)
  {
    if |cs| == 0 || IsPieceOf(cs[0], index) then 0 else 1 + FirstPiece(cs[1..], index)
  }

  /** The indexes that have a name, in the order in which they first appear. */
  function NamedIndexes(cs: seq<CallChunk>): seq<nat> {
    NamedAmong(Distinct(Indexes(cs)), cs)
  }

  function NamedAmong(ix: seq<nat>, cs: seq<CallChunk>): seq<nat> {
    if |ix| == 0 then []
    else
      var index := ix[|ix| - 1];
      NamedAmong(ix[..|ix| - 1], cs) + if LastName(cs, index) != "" then [index] else []
  }

  predicate ByFirstPiece(ix: seq<nat>, cs: seq<CallChunk>) {
    forall i, j :: 0 <= i < j < |ix| ==> FirstPiece(cs, ix[i]) < FirstPiece(cs, ix[j])
  }

  lemma {:induction false} NamedAmongExact(ix: seq<nat>, cs: seq<CallChunk>)
    requires ByFirstPiece(ix, cs)
    ensures forall index :: index in NamedAmong(ix, cs) <==> index in ix && LastName(cs, index) != ""
    ensures ByFirstPiece(NamedAmong(ix, cs), cs)
  {
    hide LastName, FirstPiece;
    if |ix| > 0 {
      var init, last := ix[..|ix| - 1], ix[|ix| - 1];
      NamedAmongExact(init, cs);
      assert ix == init + [last];
      var named := NamedAmong(init, cs);
      forall i | 0 <= i < |named|
        ensures FirstPiece(cs, named[i]) < FirstPiece(cs, last)
      {
        assert named[i] in init;
      }
    }
  }

  lemma FirstPieceSnoc(cs: seq<CallChunk>, c: CallChunk, index: nat)
    ensures FirstPiece(cs + [c], index) ==
            if FirstPiece(cs, index) < |cs| then FirstPiece(cs, index) else if IsPieceOf(c, index) then |cs| else |cs| + 1
  {
    var more := cs + [c];
    var i, k := FirstPiece(more, index), FirstPiece(cs, index);
    assert forall j :: 0 <= j < |cs| ==> more[j] == cs[j];
    assert more[|cs|] == c;
    hide FirstPiece, IsPieceOf;
  }

  /** Seen indexes keep their first places. */
  lemma SeenStay(cs: seq<CallChunk>, c: CallChunk, ix: seq<nat>)
    requires ByFirstPiece(ix, cs) && forall i :: 0 <= i < |ix| ==> FirstPiece(cs, ix[i]) < |cs|
    ensures ByFirstPiece(ix, cs + [c]) && forall i :: 0 <= i < |ix| ==> FirstPiece(cs + [c], ix[i]) < |cs|
  {
    hide FirstPiece, IsPieceOf;
    forall i | 0 <= i < |ix|
      ensures FirstPiece(cs + [c], ix[i]) == FirstPiece(cs, ix[i])
    {
      FirstPieceSnoc(cs, c, ix[i]);
    }
  }

  /** An unseen index takes the last place. */
  lemma UnseenLast(cs: seq<CallChunk>, ix: seq<nat>, index: nat, place: nat)
    requires ByFirstPiece(ix, cs) && FirstPiece(cs, index) == place
    requires forall i :: 0 <= i < |ix| ==> FirstPiece(cs, ix[i]) < place
    ensures ByFirstPiece(ix + [index], cs)
  {
    hide FirstPiece;
  }

  lemma NewPiece(cs: seq<CallChunk>, c: CallChunk)
    requires FirstPiece(cs, IndexOf(c)) == |cs|
    ensures FirstPiece(cs + [c], IndexOf(c)) == |cs|
  {
    FirstPieceSnoc(cs, c, IndexOf(c));
    hide FirstPiece;
  }

  lemma FirstPieceIn(cs: seq<CallChunk>, index: nat)
    ensures index in Distinct(Indexes(cs)) <==> FirstPiece(cs, index) < |cs|
  {
    var i := FirstPiece(cs, index);
    if i < |cs| {
      assert Indexes(cs)[i] == index;
    }
    if index in Indexes(cs) {
      var j :| 0 <= j < |cs| && Indexes(cs)[j] == index;
      assert IsPieceOf(cs[j], index);
    }
    hide FirstPiece, Distinct;
  }

  lemma {:induction false} DistinctByFirstPiece(cs: seq<CallChunk>)
    ensures ByFirstPiece(Distinct(Indexes(cs)), cs)
  {
    if |cs| == 0 {
      assert Indexes(cs) == [];
    } else {
      var init, last := cs[..|cs| - 1], cs[|cs| - 1];
      assert cs == init + [last];
      DistinctByFirstPiece(init);
      IndexesSnoc(init, last);
      var before := Distinct(Indexes(init));
      hide *;
      forall i | 0 <= i < |before|
        ensures FirstPiece(init, before[i]) < |init|
      {
        assert before[i] in before;
        FirstPieceIn(init, before[i]);
      }
      SeenStay(init, last, before);
      FirstPieceIn(init, IndexOf(last));
      if IndexOf(last) !in before {
        NewPiece(init, last);
        UnseenLast(cs, before, IndexOf(last), |init|);
      }
    }
  }

  /** The named indexes are exactly those that some piece names, by first appearance. */
  lemma NamedExact(cs: seq<CallChunk>)
    ensures ByFirstPiece(NamedIndexes(cs), cs)
    ensures forall index :: index in NamedIndexes(cs) <==>
              exists i :: 0 <= i < |cs| && IsPieceOf(cs[i], index) && cs[i].name != ""
  {
    DistinctByFirstPiece(cs);
    NamedAmongExact(Distinct(Indexes(cs)), cs);
    forall index
      ensures index in NamedIndexes(cs) <==> exists i :: 0 <= i < |cs| && IsPieceOf(cs[i], index) && cs[i].name != ""
    {
      NameGiven(cs, index);
      hide Distinct, Indexes, LastName, IsPieceOf, NamedAmong;
      if i :| 0 <= i < |cs| && IsPieceOf(cs[i], index) && cs[i].name != "" {
        assert FirstPiece(cs, index) <= i;
      }
    }
  }

  lemma {:induction false} NameGiven(cs: seq<CallChunk>, index: nat)
    ensures LastName(cs, index) != "" <==> exists i :: 0 <= i < |cs| && IsPieceOf(cs[i], index) && cs[i].name != ""
  {
    if |cs| > 0 {
      var init := cs[..|cs| - 1];
      NameGiven(init, index);
      LastNameStep(cs, index);
      assert forall i :: 0 <= i < |init| ==> init[i] == cs[i];
    }
  }

  /** `calls` is one call for each index of `ix`, with that index's last id and name, and as arguments its
      joined pieces when these are JSON, and the empty object otherwise. */
  ghost predicate AreCallsOf(calls: seq<Emitted>, ix: seq<nat>, cs: seq<CallChunk>, parses: string -> bool) {
    && |calls| == |ix|
    && forall k :: 0 <= k < |calls| ==>
         && calls[k].ToolCall?
         && calls[k].id == LastId(cs, ix[k]) && calls[k].name == LastName(cs, ix[k])
         && (forall t :: calls[k].arguments == Parsed(t) <==> t == ArgsOf(cs, ix[k]) && t != "" && parses(t))
  }

  lemma {:induction false} CallsAreOf(ix: seq<nat>, assembled: seq<Call>, cs: seq<CallChunk>, parses: string -> bool)
    requires |assembled| == |ix| && forall i :: 0 <= i < |ix| ==> assembled[i] == CallAt(cs, ix[i])
    ensures AreCallsOf(Calls(assembled, parses), NamedAmong(ix, cs), cs, parses)
  {
    if |ix| > 0 {
      var init, calls := ix[..|ix| - 1], assembled[..|ix| - 1];
      CallsAreOf(init, calls, cs, parses);
      hide ArgsOf, LastId, LastName;
    }
  }

  function TextOf(c: Chunk): seq<Emitted> {
    if c.content != "" then [TextPart(c.content, c.responseId)] else []
  }

  lemma ChunkStep(stream: seq<Chunk>, c: Chunk)
    ensures Texts(stream + [c]) == Texts(stream) + TextOf(c)
    ensures AllCalls(stream + [c]) == AllCalls(stream) + c.calls
  {
    assert (stream + [c])[..|stream|] == stream;
  }

  /** One chunk contributes its text, if it has any, and its pieces. */
  lemma ChunkOne(c: Chunk)
    ensures Texts([]) == [] && AllCalls([]) == [] && Texts([c]) == TextOf(c) && AllCalls([c]) == c.calls
  {
    ChunkStep([], c);
    assert [] + [c] == [c];
  }

  /** The texts of a stream are those of its chunks, in order. */
  lemma {:induction false} TextsConcat(a: seq<Chunk>, b: seq<Chunk>)
    ensures Texts(a + b) == Texts(a) + Texts(b)
  {
    if |b| == 0 {
      assert a + b == a && b == [];
    } else {
      var init, last := b[..|b| - 1], b[|b| - 1];
      TextsConcat(a, init);
      ChunkStep(a + init, last);
      ChunkStep(init, last);
      hide Texts, AllCalls, TextOf;
      assert b == init + [last];
      Assoc(a, init, [last]);
      Assoc(Texts(a), Texts(init), TextOf(last));
    }
  }

  /** So are its pieces. */
  lemma {:induction false} PiecesConcat(a: seq<Chunk>, b: seq<Chunk>)
    ensures AllCalls(a + b) == AllCalls(a) + AllCalls(b)
  {
    if |b| == 0 {
      assert a + b == a && b == [];
    } else {
      var init, last := b[..|b| - 1], b[|b| - 1];
      PiecesConcat(a, init);
      ChunkStep(a + init, last);
      ChunkStep(init, last);
      hide Texts, AllCalls, TextOf;
      assert b == init + [last];
      Assoc(a, init, [last]);
      Assoc(AllCalls(a), AllCalls(init), last.calls);
    }
  }

  // ----- The accumulator -----

  function Updated(call: Call, c: CallChunk): Call {
    Call(call.index, if c.id != "" then c.id else call.id, if c.name != "" then c.name else call.name, call.args + c.args)
  }

  lemma IndexesSnoc(cs: seq<CallChunk>, c: CallChunk)
    ensures Indexes(cs + [c]) == Indexes(cs) + [IndexOf(c)]
    ensures Distinct(Indexes(cs + [c])) ==
            if IndexOf(c) in Distinct(Indexes(cs)) then Distinct(Indexes(cs)) else Distinct(Indexes(cs)) + [IndexOf(c)]
  {
    assert Indexes(cs + [c]) == Indexes(cs) + [IndexOf(c)];
    DistinctSnoc(Indexes(cs), IndexOf(c));
  }

  lemma CallAtSnoc(cs: seq<CallChunk>, c: CallChunk, index: nat)
    ensures CallAt(cs + [c], index) == if IndexOf(c) == index then Updated(CallAt(cs, index), c) else CallAt(cs, index)
  {
    assert (cs + [c])[..|cs|] == cs;
  }

  lemma {:induction false} CallAtUnseen(cs: seq<CallChunk>, index: nat)
    requires index !in Indexes(cs)
    ensures CallAt(cs, index) == Call(index, "", "", "")
  {
    if |cs| > 0 {
      var init, last := cs[..|cs| - 1], cs[|cs| - 1];
      assert IndexOf(last) == Indexes(cs)[|cs| - 1];
      forall i | 0 <= i < |init|
        ensures Indexes(init)[i] == Indexes(cs)[i]
      {}
      CallAtUnseen(init, index);
    }
  }

  /** Recording one chunk in the accumulator, at the position of its index. */
  lemma AssembledSnoc(cs: seq<CallChunk>, c: CallChunk, k: nat)
    requires k < |Assembled(cs)| && Assembled(cs)[k].index == IndexOf(c)
    ensures Assembled(cs + [c]) == Assembled(cs)[k := Updated(Assembled(cs)[k], c)]
  {
    var ix := Distinct(Indexes(cs));
    IndexesSnoc(cs, c);
    hide CallAt, Updated, Distinct, Indexes;
    forall i | 0 <= i < |ix|
      ensures CallAt(cs + [c], ix[i]) == if ix[i] == IndexOf(c) then Updated(CallAt(cs, ix[i]), c) else CallAt(cs, ix[i])
    {
      CallAtSnoc(cs, c, ix[i]);
    }
  }

  lemma UnseenIndex(cs: seq<CallChunk>, index: nat)
    requires forall i :: 0 <= i < |Assembled(cs)| ==> Assembled(cs)[i].index != index
    ensures index !in Indexes(cs)
  {
    var ix := Distinct(Indexes(cs));
    hide CallAt, Indexes;
    forall i | 0 <= i < |ix|
      ensures ix[i] != index
    {
      assert Assembled(cs)[i].index == ix[i];
    }
  }

  lemma AssembledNew(cs: seq<CallChunk>, c: CallChunk)
    requires forall i :: 0 <= i < |Assembled(cs)| ==> Assembled(cs)[i].index != IndexOf(c)
    ensures Assembled(cs + [c]) == Assembled(cs) + [Updated(Call(IndexOf(c), c.id, c.name, ""), c)]
  {
    var ix := Distinct(Indexes(cs));
    UnseenIndex(cs, IndexOf(c));
    IndexesSnoc(cs, c);
    CallAtUnseen(cs, IndexOf(c));
    CallAtSnoc(cs, c, IndexOf(c));
    assert Updated(Call(IndexOf(c), "", "", ""), c) == Updated(Call(IndexOf(c), c.id, c.name, ""), c);
    hide CallAt, Distinct, Indexes, Updated, IndexOf, Assembled;
    var more := Assembled(cs + [c]);
    assert |more| == |ix| + 1;
    forall i | 0 <= i < |ix|
      ensures more[i] == Assembled(cs)[i]
    {
      CallAtSnoc(cs, c, ix[i]);
    }
  }

  /** The body of the loop over a chunk's pieces: find or create the index's call, then update it. */
  method Accumulate(currentToolCalls: seq<Call>, c: CallChunk, ghost seen: seq<CallChunk>) returns (r: seq<Call>)
    requires currentToolCalls == Assembled(seen)
    ensures r == Assembled(seen + [c])
  {
    var index := IndexOf(c);
    r := currentToolCalls;
    var k := 0;
    while k < |r| && r[k].index != index
      invariant k <= |r|
      invariant forall i :: 0 <= i < k ==> r[i].index != index
    {
      k := k + 1;
    }
    if k == |r| {
      AssembledNew(seen, c);
      r := r + [Call(index, c.id, c.name, "")];
    } else {
      AssembledSnoc(seen, c, k);
    }
    var currentCall := r[k];
    if c.id != "" {
      currentCall := currentCall.(id := c.id);
    }
    if c.name != "" {
      currentCall := currentCall.(name := c.name);
    }
    if c.args != "" {
      currentCall := currentCall.(args := currentCall.args + c.args);
    }
    assert currentCall == Updated(r[k], c);
    r := r[k := currentCall];
  }

  method AccumulateAll(currentToolCalls: seq<Call>, calls: seq<CallChunk>, ghost seen: seq<CallChunk>) returns (r: seq<Call>)
    requires currentToolCalls == Assembled(seen)
    ensures r == Assembled(seen + calls)
  {
    hide Assembled;
    r := currentToolCalls;
    assert calls[..0] == [] && seen + [] == seen;
    for j := 0 to |calls|
      invariant r == Assembled(seen + calls[..j])
    {
      r := Accumulate(r, calls[j], seen + calls[..j]);
      assert (seen + calls[..j]) + [calls[j]] == seen + calls[..j + 1];
    }
    assert calls[..|calls|] == calls;
  }

  method EmitCalls(currentToolCalls: seq<Call>, parses: string -> bool) returns (out: seq<Emitted>)
    ensures out == Calls(currentToolCalls, parses)
  {
    out := [];
    for i := 0 to |currentToolCalls|
      invariant out == Calls(currentToolCalls[..i], parses)
    {
      var toolCallData := currentToolCalls[i];
      assert currentToolCalls[..i + 1][..i] == currentToolCalls[..i];
      if toolCallData.name != "" {
        var parsedArgs := EmptyObject;
        if toolCallData.args != "" {
          var ok := parses(toolCallData.args);
          if ok {
            parsedArgs := Parsed(toolCallData.args);
          }
        }
        out := out + [ToolCall(toolCallData.id, toolCallData.name, parsedArgs)];
      }
    }
    assert currentToolCalls[..|currentToolCalls|] == currentToolCalls;
  }

  /** Texts as they come; then the assembled calls that have a name; then, once, the end. */
  method TransformToAIStreamChunks(stream: seq<Chunk>, parses: string -> bool) returns (out: seq<Emitted>)
    ensures out == Texts(stream) + Calls(Assembled(AllCalls(stream)), parses) + [Done]
    ensures var n, cs := |Texts(stream)|, AllCalls(stream);
            && |out| > n && out[..n] == Texts(stream) && out[|out| - 1] == Done
            && AreCallsOf(out[n..|out| - 1], NamedIndexes(cs), cs, parses)
  {
    var currentToolCalls: seq<Call> := [];
    out := [];
    AssembledEmpty();
    hide Assembled, Calls;
    for i := 0 to |stream|
      invariant out == Texts(stream[..i])
      invariant currentToolCalls == Assembled(AllCalls(stream[..i]))
    {
      var chunk := stream[i];
      assert stream[..i + 1][..i] == stream[..i];
      currentToolCalls := AccumulateAll(currentToolCalls, chunk.calls, AllCalls(stream[..i]));
      if chunk.content != "" {
        out := out + [TextPart(chunk.content, chunk.responseId)];
      }
    }
    assert stream[..|stream|] == stream;
    var calls := EmitCalls(currentToolCalls, parses);
    ghost var texts := out;
    out := out + calls + [Done];
    assert out[|texts|..|out| - 1] == calls;
    EmittedCalls(AllCalls(stream), parses);
  }

  lemma EmittedCalls(cs: seq<CallChunk>, parses: string -> bool)
    ensures AreCallsOf(Calls(Assembled(cs), parses), NamedIndexes(cs), cs, parses)
  {
    var ix := Distinct(Indexes(cs));
    hide Distinct, Indexes, Calls;
    CallsAreOf(ix, Assembled(cs), cs, parses);
  }

  lemma AssembledEmpty()
    ensures Assembled(AllCalls([])) == [] && Assembled([]) == []
  {
    assert Indexes([]) == [];
  }

  // ----- Interleaving does not matter -----

  lemma {:induction false} CallAtExtends(a: seq<CallChunk>, b: seq<CallChunk>, rest: seq<CallChunk>, index: nat)
    requires CallAt(a, index) == CallAt(b, index)
    ensures CallAt(a + rest, index) == CallAt(b + rest, index)
  {
    if |rest| == 0 {
      assert a + rest == a && b + rest == b;
    } else {
      var init, last := rest[..|rest| - 1], rest[|rest| - 1];
      CallAtExtends(a, b, init, index);
      assert a + rest == (a + init) + [last] && b + rest == (b + init) + [last];
      CallAtSnoc(a + init, last, index);
      CallAtSnoc(b + init, last, index);
    }
  }

  lemma {:induction false} IndexesConcat(a: seq<CallChunk>, b: seq<CallChunk>)
    ensures Indexes(a + b) == Indexes(a) + Indexes(b)
  {}

  lemma SwapIndexes(before: seq<CallChunk>, x: CallChunk, y: CallChunk, rest: seq<CallChunk>)
    requires IndexOf(x) in Indexes(before) && IndexOf(y) in Indexes(before)
    ensures Distinct(Indexes(before + [x] + [y] + rest)) == Distinct(Indexes(before + rest))
  {
    IndexesSnoc(before, x);
    IndexesSnoc(before + [x], y);
    IndexesConcat(before + [x] + [y], rest);
    IndexesConcat(before, rest);
    hide Distinct, Indexes;
    DistinctCongruent(Indexes(before + [x] + [y]), Indexes(before), Indexes(rest));
  }

  lemma SwapCallAt(before: seq<CallChunk>, x: CallChunk, y: CallChunk, rest: seq<CallChunk>, index: nat)
    requires IndexOf(x) != IndexOf(y)
    ensures CallAt(before + [x] + [y] + rest, index) == CallAt(before + [y] + [x] + rest, index)
  {
    hide CallAt, Updated;
    CallAtSnoc(before, x, index);
    CallAtSnoc(before, y, index);
    CallAtSnoc(before + [x], y, index);
    CallAtSnoc(before + [y], x, index);
    CallAtExtends(before + [x] + [y], before + [y] + [x], rest, index);
  }

  /** Swapping two adjacent pieces of different indexes, both seen before, changes no call. */
  lemma SwapKeepsCalls(before: seq<CallChunk>, x: CallChunk, y: CallChunk, rest: seq<CallChunk>)
    requires IndexOf(x) != IndexOf(y) && IndexOf(x) in Indexes(before) && IndexOf(y) in Indexes(before)
    ensures Assembled(before + [x] + [y] + rest) == Assembled(before + [y] + [x] + rest)
  {
    SwapIndexes(before, x, y, rest);
    SwapIndexes(before, y, x, rest);
    hide CallAt, Distinct, Indexes;
    forall index
      ensures CallAt(before + [x] + [y] + rest, index) == CallAt(before + [y] + [x] + rest, index)
    {
      SwapCallAt(before, x, y, rest, index);
    }
  }
}
