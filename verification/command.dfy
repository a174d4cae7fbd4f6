/**
 * The Ember+ command encoder: it writes a command onto a BER writer using
 * the tag layout of the Ember+ Glow DTD.
 *
 *   APPLICATION(2) {
 *     CONTEXT(0) { int number }
 *     CONTEXT(1) { int field-mask code }                  -- GetDirectory with a mask
 *     CONTEXT(2) { APPLICATION(22) {                      -- Invoke with an invocation
 *       CONTEXT(0) { int id }                             -- when the id is present
 *       CONTEXT(1) { SEQUENCE { CONTEXT(0) { value } ... } } } }
 *   }
 *
 * `CommandTree` is that layout as a TLV tree; the methods write it call by
 * call, and `CommandOf` reads a tree back into the command fields it carries.
 */
module CommandEncoder {
  import opened Wrappers
  import opened BerWriter

  /** Command numbers of the Glow DTD (`CommandType`). */
  const GetDirectory: int := 32
  const Invoke: int := 33

  /** The directory field mask (`FieldFlags`). */
  datatype FieldFlags = Sparse | All | Default | Identifier | Description | Tree | Value | Connections

  /** An invocation: an optional correlation id and positional arguments of value type `V`. */
  datatype Invocation<V> = Invocation(id: Option<int>, arguments: seq<V>)

  /**
   * A command. The encoder selects what to write by `number` alone, and reads
   * `dirFieldMask` and `invocation` without checking the command's kind, so a
   * command is its number together with both optional fields.
   */
  datatype Command<V> = Command(number: int, dirFieldMask: Option<FieldFlags>, invocation: Option<Invocation<V>>)

  /** `isInvoke`: the type guard selecting an invocation command. It never holds of a directory request. */
  predicate IsInvoke<V>(command: Command<V>): (r: bool)
    ensures r ==> command.number != GetDirectory
  {
    command.number == Invoke
  }

  /** `isGetDirectory`: the type guard selecting a directory request. It never holds of an invocation command. */
  predicate IsGetDirectory<V>(command: Command<V>): (r: bool)
    ensures r ==> !IsInvoke(command)
  {
    command.number == GetDirectory
  }

  /** The `maskToInt` table of `writeDirFieldMask`: the fixed wire code of each field mask. */
  function MaskCode(fieldMask: FieldFlags): (code: nat)
    ensures code < 8
  {
    match fieldMask
    case Sparse => 0
    case All => 1
    case Default => 2
    case Identifier => 3
    case Description => 4
    case Tree => 5
    case Value => 6
    case Connections => 7
  }

  /** The field mask a wire code stands for, if any: the inverse of `MaskCode`. */
  function FlagOfCode(code: int): (r: Option<FieldFlags>)
    ensures r.Some? <==> 0 <= code < 8
    ensures r.Some? ==> MaskCode(r.value) == code
  {
    if code == 0 then Some(Sparse)
    else if code == 1 then Some(All)
    else if code == 2 then Some(Default)
    else if code == 3 then Some(Identifier)
    else if code == 4 then Some(Description)
    else if code == 5 then Some(Tree)
    else if code == 6 then Some(Value)
    else if code == 7 then Some(Connections)
    else None
  }

  /** Every mask is recovered from its code, so no two masks share a code. */
  lemma MaskCodeInjective(a: FieldFlags, b: FieldFlags)
    ensures FlagOfCode(MaskCode(a)) == Some(a)
    ensures MaskCode(a) == MaskCode(b) ==> a == b
  {
    match a
    case Sparse =>
    case All =>
    case Default =>
    case Identifier =>
    case Description =>
    case Tree =>
    case Value =>
    case Connections =>
  }

  // ---------------------------------------------------------------------
  // The layout as a tree

  /** The element written for one argument. */
  function ArgumentTree<V>(v: V): Tlv<V>
  {
    Constructed(ContextTag(0), [Scalar(v)])
  }

  /** The elements written for an argument list, in list order. */
  function ArgumentTrees<V>(args: seq<V>): seq<Tlv<V>>
  {
    seq(|args|, i requires 0 <= i < |args| => ArgumentTree(args[i]))
  }

  /** The optional id element of an invocation. */
  function IdItems<V>(id: Option<int>): seq<Tlv<V>>
  {
    if id.Some? then [Constructed(ContextTag(0), [Integer(id.value)])] else []
  }

  /** The tree `encodeInvocation` writes. */
  function InvocationTree<V>(invocation: Invocation<V>): Tlv<V>
  {
    Constructed(ApplicationTag(22),
      IdItems(invocation.id) +
      [Constructed(ContextTag(1), [Constructed(SequenceTag, ArgumentTrees(invocation.arguments))])])
  }

  /** The optional CONTEXT(1) element of a command. */
  function DirFieldItems<V>(el: Command<V>): seq<Tlv<V>>
  {
    if IsGetDirectory(el) && el.dirFieldMask.Some? then
      [Constructed(ContextTag(1), [Integer(MaskCode(el.dirFieldMask.value))])]
    else []
  }

  /** The optional CONTEXT(2) element of a command. */
  function InvocationItems<V>(el: Command<V>): seq<Tlv<V>>
  {
    if IsInvoke(el) && el.invocation.Some? then
      [Constructed(ContextTag(2), [InvocationTree(el.invocation.value)])]
    else []
  }

  /** The tree `encodeCommand` writes. */
  function CommandTree<V>(el: Command<V>): Tlv<V>
  {
    Constructed(ApplicationTag(2),
      [Constructed(ContextTag(0), [Integer(el.number)])] + DirFieldItems(el) + InvocationItems(el))
  }

  /** The writer calls `encodeCommand` makes. */
  function CommandTrace<V>(el: Command<V>): seq<Call<V>>
  {
    Flatten(CommandTree(el))
  }

  // ---------------------------------------------------------------------
  // Reading a tree back

  /** The argument values held by a list of argument elements, or `None` if one is malformed. */
  function ArgumentsOf<V>(items: seq<Tlv<V>>): (r: Option<seq<V>>)
    ensures r.Some? ==> |r.value| == |items|
  {
    if items == [] then Some([])
    else
      var head := items[0];
      if head.Constructed? && head.tag == ContextTag(0) && |head.items| == 1 && head.items[0].Scalar? then
        match ArgumentsOf(items[1..])
        case Some(rest) => Some([head.items[0].v] + rest)
        case None => None
      else None
  }

  /** The invocation an APPLICATION(22) element holds, or `None` if it is not one. */
  function InvocationOf<V>(t: Tlv<V>): Option<Invocation<V>>
  {
    if !(t.Constructed? && t.tag == ApplicationTag(22) && 1 <= |t.items| <= 2) then None
    else
      var last := t.items[|t.items| - 1];
      var id: Option<Option<int>> :=
        if |t.items| == 1 then Some(None)
        else
          var first := t.items[0];
          if first.Constructed? && first.tag == ContextTag(0) && |first.items| == 1 && first.items[0].Integer?
          then Some(Some(first.items[0].n))
          else None;
      if id.Some? && last.Constructed? && last.tag == ContextTag(1) && |last.items| == 1
         && last.items[0].Constructed? && last.items[0].tag == SequenceTag
      then
        match ArgumentsOf(last.items[0].items)
        case Some(args) => Some(Invocation(id.value, args))
        case None => None
      else None
  }

  /** The command an APPLICATION(2) element holds, or `None` if it is not one. */
  function CommandOf<V>(t: Tlv<V>): Option<Command<V>>
  {
    if !(t.Constructed? && t.tag == ApplicationTag(2) && 1 <= |t.items| <= 2) then None
    else
      var first := t.items[0];
      if !(first.Constructed? && first.tag == ContextTag(0) && |first.items| == 1 && first.items[0].Integer?) then None
      else
        var number := first.items[0].n;
        if |t.items| == 1 then Some(Command(number, None, None))
        else
          var extra := t.items[1];
          if !(extra.Constructed? && |extra.items| == 1) then None
          else if extra.tag == ContextTag(1) && extra.items[0].Integer? && FlagOfCode(extra.items[0].n).Some? then
            Some(Command(number, FlagOfCode(extra.items[0].n), None))
          else if extra.tag == ContextTag(2) && InvocationOf(extra.items[0]).Some? then
            Some(Command(number, None, InvocationOf(extra.items[0])))
          else None
  }

  /** The fields of a command that the encoder writes: the mask only for GetDirectory, the invocation only for Invoke. */
  function Written<V>(el: Command<V>): Command<V>
  {
    Command(el.number,
      if IsGetDirectory(el) then el.dirFieldMask else None,
      if IsInvoke(el) then el.invocation else None)
  }

  // ---------------------------------------------------------------------
  // Properties of the encoding

  /** A tree has a constructed item with tag `tag`. */
  ghost predicate HasItem<V>(t: Tlv<V>, tag: Tag)
  {
    t.Constructed? && exists i :: 0 <= i < |t.items| && t.items[i].Constructed? && t.items[i].tag == tag
  }

  /**
   * The calls form exactly one properly nested element, an APPLICATION(2)
   * whose first item is CONTEXT(0) holding the command number as an integer.
   */
  lemma EncodeCommandShape<V>(el: Command<V>)
    ensures Balanced(CommandTrace(el))
    ensures Decode(CommandTrace(el)) == Some([CommandTree(el)])
    ensures CommandTree(el).Constructed? && CommandTree(el).tag == ApplicationTag(2)
    ensures |CommandTree(el).items| >= 1
    ensures CommandTree(el).items[0] == Constructed(ContextTag(0), [Integer(el.number)])
  {
    FlattenBalanced(CommandTree(el));
    DecodeFlatten(CommandTree(el));
  }

  /**
   * CONTEXT(1) is written exactly for a GetDirectory command with a mask, as
   * the second item, holding one integer: the mask's code. CONTEXT(2) is
   * written exactly for an Invoke command with an invocation, as the second
   * item, holding the invocation. The two never appear together.
   */
  lemma CommandOptionalItems<V>(el: Command<V>)
    ensures HasItem(CommandTree(el), ContextTag(1)) <==> el.number == GetDirectory && el.dirFieldMask.Some?
    ensures HasItem(CommandTree(el), ContextTag(2)) <==> el.number == Invoke && el.invocation.Some?
    ensures !(HasItem(CommandTree(el), ContextTag(1)) && HasItem(CommandTree(el), ContextTag(2)))
    ensures |CommandTree(el).items| <= 2
    ensures el.number == GetDirectory && el.dirFieldMask.Some? ==>
      CommandTree(el).items[1] == Constructed(ContextTag(1), [Integer(MaskCode(el.dirFieldMask.value))])
    ensures el.number == Invoke && el.invocation.Some? ==>
      CommandTree(el).items[1] == Constructed(ContextTag(2), [InvocationTree(el.invocation.value)])
  {
    var t := CommandTree(el);
    var d, v := DirFieldItems(el), InvocationItems(el);
    assert t.items == [t.items[0]] + d + v;
    assert |d| + |v| <= 1;
    if HasItem(t, ContextTag(1)) {
      var i :| 0 <= i < |t.items| && t.items[i].Constructed? && t.items[i].tag == ContextTag(1);
      assert i != 0;
      assert t.items[i] in d + v;
    }
    if HasItem(t, ContextTag(2)) {
      var i :| 0 <= i < |t.items| && t.items[i].Constructed? && t.items[i].tag == ContextTag(2);
      assert i != 0;
      assert t.items[i] in d + v;
    }
    if el.number == GetDirectory && el.dirFieldMask.Some? {
      assert t.items[1].tag == ContextTag(1);
    }
    if el.number == Invoke && el.invocation.Some? {
      assert t.items[1].tag == ContextTag(2);
    }
  }

  /**
   * The two guards decide everything after the command number: an optional
   * item is written only under its guard, and a command that passes neither
   * guard is written as its number alone, whatever its other fields hold.
   */
  lemma CommandGuardsDecideItems<V>(el: Command<V>)
    ensures HasItem(CommandTree(el), ContextTag(1)) ==> IsGetDirectory(el)
    ensures HasItem(CommandTree(el), ContextTag(2)) ==> IsInvoke(el)
    ensures !IsGetDirectory(el) && !IsInvoke(el) ==> CommandTree(el).items == [Constructed(ContextTag(0), [Integer(el.number)])]
  {
    CommandOptionalItems(el);
    EncodeCommandShape(el);
  }

  /**
   * An invocation is one APPLICATION(22) element. Its CONTEXT(0) id item is
   * written exactly when the id is present (an id of 0 included); its last
   * item is CONTEXT(1) holding one SEQUENCE with one CONTEXT(0) element per
   * argument, each holding that argument, in list order.
   */
  lemma InvocationShape<V>(invocation: Invocation<V>)
    ensures InvocationTree(invocation).tag == ApplicationTag(22)
    ensures HasItem(InvocationTree(invocation), ContextTag(0)) <==> invocation.id.Some?
    ensures invocation.id.Some? ==>
      InvocationTree(invocation).items[0] == Constructed(ContextTag(0), [Integer(invocation.id.value)])
    ensures var items := InvocationTree(invocation).items;
      |items| >= 1 && items[|items| - 1] == Constructed(ContextTag(1), [Constructed(SequenceTag, ArgumentTrees(invocation.arguments))])
    ensures |ArgumentTrees(invocation.arguments)| == |invocation.arguments|
    ensures forall i :: 0 <= i < |invocation.arguments| ==>
      ArgumentTrees(invocation.arguments)[i] == Constructed(ContextTag(0), [Scalar(invocation.arguments[i])])
  {
    var t := InvocationTree(invocation);
    if HasItem(t, ContextTag(0)) {
      var i :| 0 <= i < |t.items| && t.items[i].Constructed? && t.items[i].tag == ContextTag(0);
      assert i != |t.items| - 1;
    }
    if invocation.id.Some? {
      assert t.items[0].tag == ContextTag(0);
    }
  }

  /** Reading the argument elements back gives the argument list, in order. */
  lemma {:induction false} ArgumentsRoundTrip<V>(args: seq<V>)
    ensures ArgumentsOf(ArgumentTrees(args)) == Some(args)
    decreases |args|
  {
    if args != [] {
      var trees := ArgumentTrees(args);
      assert trees[1..] == ArgumentTrees(args[1..]);
      ArgumentsRoundTrip(args[1..]);
      assert [args[0]] + args[1..] == args;
    }
  }

  /** Reading an invocation element back gives the invocation. */
  lemma InvocationRoundTrip<V>(invocation: Invocation<V>)
    ensures InvocationOf(InvocationTree(invocation)) == Some(invocation)
  {
    ArgumentsRoundTrip(invocation.arguments);
  }

  /**
   * The encoding loses nothing the encoder writes: decoding the calls and
   * reading the command back gives the command's number, its mask when it is
   * a GetDirectory, and its invocation when it is an Invoke.
   */
  lemma EncodeCommandRoundTrip<V>(el: Command<V>)
    ensures Decode(CommandTrace(el)) == Some([CommandTree(el)])
    ensures CommandOf(CommandTree(el)) == Some(Written(el))
  {
    DecodeFlatten(CommandTree(el));
    if IsGetDirectory(el) && el.dirFieldMask.Some? {
      MaskCodeInjective(el.dirFieldMask.value, el.dirFieldMask.value);
    }
    if IsInvoke(el) && el.invocation.Some? {
      InvocationRoundTrip(el.invocation.value);
    }
  }

  /** Two commands that differ in a written field produce different writer calls. */
  lemma EncodeCommandInjective<V>(a: Command<V>, b: Command<V>)
    requires Written(a) != Written(b)
    ensures CommandTrace(a) != CommandTrace(b)
  {
    EncodeCommandRoundTrip(a);
    EncodeCommandRoundTrip(b);
  }

  /** GetDirectory with mask All: APPLICATION(2){ CONTEXT(0){int 32}, CONTEXT(1){int 1} }. */
  lemma GetDirectoryAllExample<V>()
    ensures CommandTrace<V>(Command(GetDirectory, Some(All), None)) ==
      [StartSeq(ApplicationTag(2)),
         StartSeq(ContextTag(0)), WriteInt(GetDirectory), EndSeq,
         StartSeq(ContextTag(1)), WriteInt(1), EndSeq,
       EndSeq]
  {
  }

  // ---------------------------------------------------------------------
  // The encoder, call by call

  /** `writeDirFieldMask`: writes the mask's code as one integer. */
  method WriteDirFieldMask<V>(fieldMask: FieldFlags, writer: Writer<V>)
    modifies writer
    ensures writer.calls == old(writer.calls) + [WriteInt(MaskCode(fieldMask))]
  {
    var maskToInt := map[Sparse := 0, All := 1, Default := 2, Identifier := 3,
                         Description := 4, Tree := 5, Value := 6, Connections := 7];
    assert fieldMask in maskToInt && maskToInt[fieldMask] == MaskCode(fieldMask) by {
      match fieldMask
      case Sparse => case All => case Default => case Identifier =>
      case Description => case Tree => case Value => case Connections =>
    }
    writer.WriteInteger(maskToInt[fieldMask]);
  }

  /** The calls the argument loop of `encodeInvocation` makes for `args`, built up argument by argument. */
  function ArgumentCalls<V>(args: seq<V>): seq<Call<V>>
  {
    if args == [] then []
    else ArgumentCalls(args[..|args| - 1]) + [StartSeq(ContextTag(0)), WriteValue(args[|args| - 1]), EndSeq]
  }

  /** The argument loop writes exactly the argument elements of the layout. */
  lemma {:induction false} ArgumentCallsFlatten<V>(args: seq<V>)
    ensures ArgumentCalls(args) == FlattenAll(ArgumentTrees(args))
    decreases |args|
  {
    if args != [] {
      var init, last := args[..|args| - 1], args[|args| - 1];
      ArgumentCallsFlatten(init);
      assert ArgumentTrees(args) == ArgumentTrees(init) + [ArgumentTree(last)];
      FlattenAllConcat(ArgumentTrees(init), [ArgumentTree(last)]);
      FlattenAllSingle(ArgumentTree(last));
      FlattenWrapped(ContextTag(0), Scalar(last));
    }
  }

  /** The calls that write an invocation's optional id item. */
  function IdCalls<V>(id: Option<int>): seq<Call<V>>
  {
    if id.Some? then [StartSeq(ContextTag(0)), WriteInt(id.value), EndSeq] else []
  }

  /** The calls that write an invocation's optional id element. */
  lemma IdItemsFlatten<V>(id: Option<int>)
    ensures FlattenAll(IdItems<V>(id)) == IdCalls(id)
  {
    if id.Some? {
      FlattenAllSingle<V>(Constructed(ContextTag(0), [Integer(id.value)]));
      FlattenIntegerItem<V>(ContextTag(0), id.value);
    }
  }

  /** The calls that write an invocation's CONTEXT(1) argument-list element. */
  lemma ArgumentListFlatten<V>(args: seq<V>)
    ensures Flatten(Constructed(ContextTag(1), [Constructed(SequenceTag, ArgumentTrees(args))]))
      == [StartSeq(ContextTag(1)), StartSeq(SequenceTag)] + ArgumentCalls(args) + [EndSeq, EndSeq]
  {
    var argsTree: Tlv<V> := Constructed(SequenceTag, ArgumentTrees(args));
    ArgumentCallsFlatten(args);
    assert Flatten(argsTree) == [StartSeq(SequenceTag)] + ArgumentCalls(args) + [EndSeq];
    FlattenWrapped(ContextTag(1), argsTree);
  }

  /** Regrouping the calls of a sequence that ends with the argument list. */
  lemma RegroupClosing<T>(open: T, ids: seq<T>, list: T, sequence: T, args: seq<T>, close: T)
    ensures [open] + (ids + ([list, sequence] + args + [close, close])) + [close]
      == [open] + ids + [list, sequence] + args + [close, close, close]
  {
    assert [close, close] + [close] == [close, close, close];
  }

  /** The calls that write an invocation, split at the argument list. */
  lemma InvocationTraceSplit<V>(invocation: Invocation<V>)
    ensures Flatten(InvocationTree(invocation)) ==
      [StartSeq(ApplicationTag(22))] + IdCalls(invocation.id)
      + [StartSeq(ContextTag(1)), StartSeq(SequenceTag)]
      + ArgumentCalls(invocation.arguments)
      + [EndSeq, EndSeq, EndSeq]
  {
    var listTree: Tlv<V> := Constructed(ContextTag(1), [Constructed(SequenceTag, ArgumentTrees(invocation.arguments))]);
    var ids := IdItems<V>(invocation.id);
    ArgumentListFlatten(invocation.arguments);
    FlattenAllSingle(listTree);
    FlattenAllConcat(ids, [listTree]);
    IdItemsFlatten<V>(invocation.id);
    RegroupClosing(StartSeq(ApplicationTag(22)), IdCalls<V>(invocation.id), StartSeq(ContextTag(1)),
      StartSeq(SequenceTag), ArgumentCalls(invocation.arguments), EndSeq);
  }

  /** The `for` loop of `encodeInvocation`: one CONTEXT(0) element per argument, in list order. */
  method WriteArguments<V>(args: seq<V>, writer: Writer<V>)
    modifies writer
    ensures writer.calls == old(writer.calls) + ArgumentCalls(args)
  {
    var i := 0;
    while i < |args|
      invariant 0 <= i <= |args|
      invariant writer.calls == old(writer.calls) + ArgumentCalls(args[..i])
    {
      writer.StartSequence(ContextTag(0));
      writer.WriteValueOf(args[i]);
      writer.EndSequence();
      assert args[..i + 1][..i] == args[..i];
      i := i + 1;
    }
    assert args[..i] == args;
  }

  /** A log that has the invocation's head and then its argument list has the whole invocation. */
  lemma InvocationLogComplete<V>(before: seq<Call<V>>, head: seq<Call<V>>, invocation: Invocation<V>)
    requires head == before + ([StartSeq(ApplicationTag(22))] + IdCalls(invocation.id))
    ensures head + ([StartSeq(ContextTag(1)), StartSeq(SequenceTag)]
      + ArgumentCalls(invocation.arguments) + [EndSeq, EndSeq, EndSeq])
      == before + Flatten(InvocationTree(invocation))
  {
    InvocationTraceSplit(invocation);
  }

  /** `encodeInvocation`: writes the invocation's element. */
  method EncodeInvocation<V>(invocation: Invocation<V>, writer: Writer<V>)
    modifies writer
    ensures writer.calls == old(writer.calls) + Flatten(InvocationTree(invocation))
  {
    writer.StartSequence(ApplicationTag(22));
    if invocation.id.Some? {
      writer.StartSequence(ContextTag(0));
      writer.WriteInteger(invocation.id.value);
      writer.EndSequence();
    }
    ghost var head := writer.calls;
    assert head == old(writer.calls) + ([StartSeq(ApplicationTag(22))] + IdCalls(invocation.id));
    writer.StartSequence(ContextTag(1));
    writer.StartSequence(SequenceTag);
    WriteArguments(invocation.arguments, writer);
    writer.EndSequence();
    writer.EndSequence();
    writer.EndSequence();
    assert writer.calls == head + ([StartSeq(ContextTag(1)), StartSeq(SequenceTag)]
      + ArgumentCalls(invocation.arguments) + [EndSeq, EndSeq, EndSeq]);
    InvocationLogComplete(old(writer.calls), head, invocation);
  }

  /** The calls that write a command, split at its optional items. */
  lemma CommandTraceSplit<V>(el: Command<V>)
    ensures CommandTrace(el) ==
      [StartSeq(ApplicationTag(2)), StartSeq(ContextTag(0)), WriteInt(el.number), EndSeq]
      + (if IsGetDirectory(el) && el.dirFieldMask.Some?
         then [StartSeq(ContextTag(1)), WriteInt(MaskCode(el.dirFieldMask.value)), EndSeq] else [])
      + (if IsInvoke(el) && el.invocation.Some?
         then [StartSeq(ContextTag(2))] + Flatten(InvocationTree(el.invocation.value)) + [EndSeq] else [])
      + [EndSeq]
  {
    var numberItem: Tlv<V> := Constructed(ContextTag(0), [Integer(el.number)]);
    var d, v := DirFieldItems(el), InvocationItems(el);
    FlattenAllConcat([numberItem] + d, v);
    FlattenAllConcat([numberItem], d);
    FlattenAllSingle(numberItem);
    FlattenIntegerItem<V>(ContextTag(0), el.number);
    if d != [] {
      FlattenAllSingle(d[0]);
      FlattenIntegerItem<V>(ContextTag(1), MaskCode(el.dirFieldMask.value));
    }
    if v != [] {
      FlattenAllSingle(v[0]);
      FlattenWrapped(ContextTag(2), InvocationTree(el.invocation.value));
    }
  }

  /** `encodeCommand`: writes the command's element. */
  method EncodeCommand<V>(el: Command<V>, writer: Writer<V>)
    modifies writer
    ensures writer.calls == old(writer.calls) + CommandTrace(el)
  {
    writer.StartSequence(ApplicationTag(2));

    writer.StartSequence(ContextTag(0));
    writer.WriteInteger(el.number);
    writer.EndSequence();

    if IsGetDirectory(el) && el.dirFieldMask.Some? {
      writer.StartSequence(ContextTag(1));
      WriteDirFieldMask(el.dirFieldMask.value, writer);
      writer.EndSequence();
    }

    if IsInvoke(el) && el.invocation.Some? {
      writer.StartSequence(ContextTag(2));
      EncodeInvocation(el.invocation.value, writer);
      writer.EndSequence();
    }

    writer.EndSequence();
    CommandTraceSplit(el);
  }
}
