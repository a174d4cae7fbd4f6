/**
 * The BER writer as the command encoder sees it. The byte-level writer is
 * not part of this model: a writer is the log of the calls made to it
 * (`startSequence`, `writeInt`, `writeValue`, `endSequence`). A TLV tree
 * gives the intended shape of such a log: `Flatten` turns a tree into the
 * calls that write it and `Decode` reads calls back into trees.
 */
module BerWriter {
  import opened Wrappers

  /** ASN.1 tag classes used by the encoder. */
  datatype TagClass = Universal | Application | Context

  /** A tag: its class and its number within the class. */
  datatype Tag = Tag(cls: TagClass, number: nat)

  /** `Ber.APPLICATION(n)` */
  function ApplicationTag(n: nat): Tag { Tag(Application, n) }

  /** `Ber.CONTEXT(n)` */
  function ContextTag(n: nat): Tag { Tag(Context, n) }

  /** `Ber.BERDataTypes.SEQUENCE`, the universal SEQUENCE (number 16 in ITU-T X.680). */
  const SequenceTag: Tag := Tag(Universal, 16)

  /** One call made on a writer. `V` is the type of the values passed to `writeValue`. */
  datatype Call<V> = StartSeq(tag: Tag) | WriteInt(n: int) | WriteValue(v: V) | EndSeq

  /** A TLV tree: a constructed (sequence) element with its items, an integer, or a value. */
  datatype Tlv<V> = Constructed(tag: Tag, items: seq<Tlv<V>>) | Integer(n: int) | Scalar(v: V)

  /** The calls that write `t`. */
  function Flatten<V>(t: Tlv<V>): seq<Call<V>>
    decreases t
  {
    match t
    case Constructed(tag, items) => [StartSeq(tag)] + FlattenAll(items) + [EndSeq]
    case Integer(n) => [WriteInt(n)]
    case Scalar(v) => [WriteValue(v)]
  }

  /** The calls that write the trees of `ts`, one after the other. */
  function FlattenAll<V>(ts: seq<Tlv<V>>): seq<Call<V>>
    decreases ts
  {
    if ts == [] then [] else Flatten(ts[0]) + FlattenAll(ts[1..])
  }

  lemma {:induction false} FlattenAllConcat<V>(a: seq<Tlv<V>>, b: seq<Tlv<V>>)
    ensures FlattenAll(a + b) == FlattenAll(a) + FlattenAll(b)
    decreases |a|
  {
    if a == [] {
      assert a + b == b;
    } else {
      assert (a + b)[0] == a[0];
      assert (a + b)[1..] == a[1..] + b;
      FlattenAllConcat(a[1..], b);
    }
  }

  lemma FlattenAllSingle<V>(t: Tlv<V>)
    ensures FlattenAll([t]) == Flatten(t)
  {
    var one := [t];
    assert one[1..] == [];
    assert FlattenAll(one) == Flatten(t) + FlattenAll(one[1..]);
  }

  /** The calls that write a sequence holding one element. */
  lemma FlattenWrapped<V>(tag: Tag, t: Tlv<V>)
    ensures Flatten(Constructed(tag, [t])) == [StartSeq(tag)] + Flatten(t) + [EndSeq]
  {
    FlattenAllSingle(t);
  }

  /** The calls that write a sequence holding one integer. */
  lemma FlattenIntegerItem<V>(tag: Tag, n: int)
    ensures Flatten<V>(Constructed(tag, [Integer(n)])) == [StartSeq(tag), WriteInt(n), EndSeq]
  {
    FlattenWrapped<V>(tag, Integer(n));
  }

  // ---------------------------------------------------------------------
  // Reading a call log back into trees

  /**
   * Reads the trees at the front of `cs`, stopping at an `EndSeq` that closes
   * an enclosing sequence or at the end of the log. It returns the trees and
   * the calls not consumed; `None` when a sequence is never closed.
   */
  function ParseItems<V>(cs: seq<Call<V>>): (r: Option<(seq<Tlv<V>>, seq<Call<V>>)>)
    ensures r.Some? ==> |r.value.1| <= |cs|
    ensures r.Some? ==> r.value.1 == [] || r.value.1[0].EndSeq?
    decreases |cs|
  {
    if cs == [] then Some(([], []))
    else match cs[0]
      case EndSeq => Some(([], cs))
      case WriteInt(n) =>
        (match ParseItems(cs[1..])
         case None => None
         case Some((ts, rest)) => Some(([Integer(n)] + ts, rest)))
      case WriteValue(v) =>
        (match ParseItems(cs[1..])
         case None => None
         case Some((ts, rest)) => Some(([Scalar(v)] + ts, rest)))
      case StartSeq(tag) =>
        match ParseItems(cs[1..])
        case None => None
        case Some((items, rest)) =>
          if rest == [] then None
          else
            match ParseItems(rest[1..])
            case None => None
            case Some((siblings, rest')) => Some(([Constructed(tag, items)] + siblings, rest'))
  }

  /** The trees a whole call log writes, or `None` when its sequences are not properly nested. */
  function Decode<V>(cs: seq<Call<V>>): Option<seq<Tlv<V>>>
  {
    match ParseItems(cs)
    case Some((ts, rest)) => if rest == [] then Some(ts) else None
    case None => None
  }

  /** One integer or value call in front of a log adds that leaf in front of what the log reads. */
  lemma ParseLeaf<V>(t: Tlv<V>, after: seq<Call<V>>, ts: seq<Tlv<V>>, rest: seq<Call<V>>)
    requires !t.Constructed?
    requires ParseItems(after) == Some((ts, rest))
    ensures ParseItems(Flatten(t) + after) == Some(([t] + ts, rest))
  {
    var cs := Flatten(t) + after;
    assert cs[1..] == after;
  }

  /** A whole sequence written in front of a log adds that sequence in front of what the log reads. */
  lemma ParseSequence<V>(tag: Tag, items: seq<Tlv<V>>, after: seq<Call<V>>, ts: seq<Tlv<V>>, rest: seq<Call<V>>)
    requires ParseItems(FlattenAll(items) + ([EndSeq] + after)) == Some((items, [EndSeq] + after))
    requires ParseItems(after) == Some((ts, rest))
    ensures ParseItems(Flatten(Constructed(tag, items)) + after) == Some(([Constructed(tag, items)] + ts, rest))
  {
    var cs := Flatten(Constructed(tag, items)) + after;
    var closing := [EndSeq] + after;
    assert cs[0] == StartSeq(tag);
    assert cs[1..] == FlattenAll(items) + closing;
    assert closing[1..] == after;
  }

  /** Reading back what `FlattenAll` wrote yields the same trees and leaves what follows. */
  lemma {:induction false} ParseFlattenAll<V>(ts: seq<Tlv<V>>, rest: seq<Call<V>>)
    requires rest == [] || rest[0].EndSeq?
    ensures ParseItems(FlattenAll(ts) + rest) == Some((ts, rest))
    decreases ts
  {
    if ts == [] {
      assert FlattenAll(ts) + rest == rest;
    } else {
      var t, tail := ts[0], ts[1..];
      var after := FlattenAll(tail) + rest;
      ParseFlattenAll(tail, rest);
      assert FlattenAll(ts) + rest == Flatten(t) + after;
      assert [t] + tail == ts;
      match t
      case Constructed(tag, items) =>
        ParseFlattenAll(items, [EndSeq] + after);
        ParseSequence(tag, items, after, tail, rest);
      case _ =>
        ParseLeaf(t, after, tail, rest);
    }
  }

  /** A call log written from a list of trees decodes to exactly those trees. */
  lemma DecodeFlattenAll<V>(ts: seq<Tlv<V>>)
    ensures Decode(FlattenAll(ts)) == Some(ts)
  {
    ParseFlattenAll(ts, []);
    assert FlattenAll(ts) + [] == FlattenAll(ts);
  }

  /** A call log written from one tree decodes to exactly that one tree. */
  lemma DecodeFlatten<V>(t: Tlv<V>)
    ensures Decode(Flatten(t)) == Some([t])
  {
    DecodeFlattenAll([t]);
    FlattenAllSingle(t);
  }

  // ---------------------------------------------------------------------
  // Balance: every startSequence is matched by a later endSequence

  /** The number of sequences `cs` leaves open (negative when it closes more than it opens). */
  function Depth<V>(cs: seq<Call<V>>): int
  {
    if cs == [] then 0
    else (match cs[0] case StartSeq(_) => 1 case EndSeq => -1 case _ => 0) + Depth(cs[1..])
  }

  /** Every prefix closes no more sequences than it opened, and the whole log closes all it opened. */
  ghost predicate Balanced<V>(cs: seq<Call<V>>)
  {
    Depth(cs) == 0 && forall k :: 0 <= k <= |cs| ==> Depth(cs[..k]) >= 0
  }

  lemma {:induction false} DepthConcat<V>(a: seq<Call<V>>, b: seq<Call<V>>)
    ensures Depth(a + b) == Depth(a) + Depth(b)
    decreases |a|
  {
    if a == [] {
      assert a + b == b;
    } else {
      assert (a + b)[0] == a[0];
      assert (a + b)[1..] == a[1..] + b;
      DepthConcat(a[1..], b);
    }
  }

  lemma BalancedConcat<V>(a: seq<Call<V>>, b: seq<Call<V>>)
    requires Balanced(a) && Balanced(b)
    ensures Balanced(a + b)
  {
    DepthConcat(a, b);
    forall k | 0 <= k <= |a + b| ensures Depth((a + b)[..k]) >= 0 {
      if k <= |a| {
        assert (a + b)[..k] == a[..k];
      } else {
        assert (a + b)[..k] == a + b[..k - |a|];
        DepthConcat(a, b[..k - |a|]);
        assert a[..|a|] == a;
      }
    }
  }

  lemma BalancedWrap<V>(tag: Tag, a: seq<Call<V>>)
    requires Balanced(a)
    ensures Balanced([StartSeq(tag)] + a + [EndSeq])
  {
    var w := [StartSeq(tag)] + a + [EndSeq];
    assert w == [StartSeq(tag)] + (a + [EndSeq]);
    var close: seq<Call<V>> := [EndSeq];
    assert Depth(close) == -1;
    DepthConcat(a, [EndSeq]);
    assert w[1..] == a + [EndSeq];
    forall k | 0 <= k <= |w| ensures Depth(w[..k]) >= 0 {
      if k == 0 {
        assert w[..k] == [];
      } else if k <= |a| + 1 {
        assert w[..k] == [StartSeq(tag)] + a[..k - 1];
        assert (w[..k])[1..] == a[..k - 1];
      } else {
        assert w[..k] == w;
      }
    }
  }

  /** The calls that write any tree are balanced. */
  lemma {:induction false} FlattenBalanced<V>(t: Tlv<V>)
    ensures Balanced(Flatten(t))
    decreases t
  {
    match t
    case Constructed(tag, items) =>
      FlattenAllBalanced(items);
      BalancedWrap(tag, FlattenAll(items));
    case Integer(n) =>
      assert Depth(Flatten(t)) == 0;
      assert forall k :: 0 <= k <= 1 ==> Flatten(t)[..k] == [] || Flatten(t)[..k] == Flatten(t);
    case Scalar(v) =>
      assert Depth(Flatten(t)) == 0;
      assert forall k :: 0 <= k <= 1 ==> Flatten(t)[..k] == [] || Flatten(t)[..k] == Flatten(t);
  }

  lemma {:induction false} FlattenAllBalanced<V>(ts: seq<Tlv<V>>)
    ensures Balanced(FlattenAll(ts))
    decreases ts
  {
    if ts == [] {
      assert forall k :: 0 <= k <= 0 ==> FlattenAll(ts)[..k] == [];
    } else {
      FlattenBalanced(ts[0]);
      FlattenAllBalanced(ts[1..]);
      BalancedConcat(Flatten(ts[0]), FlattenAll(ts[1..]));
    }
  }

  // ---------------------------------------------------------------------
  // The writer object

  /** A writer modelled by the log of the calls made to it. */
  class Writer<V> {
    var calls: seq<Call<V>>

    constructor ()
      ensures calls == []
    {
      calls := [];
    }

    method StartSequence(tag: Tag)
      modifies this
      ensures calls == old(calls) + [StartSeq(tag)]
    {
      calls := calls + [StartSeq(tag)];
    }

    method WriteInteger(n: int)
      modifies this
      ensures calls == old(calls) + [WriteInt(n)]
    {
      calls := calls + [WriteInt(n)];
    }

    method WriteValueOf(v: V)
      modifies this
      ensures calls == old(calls) + [WriteValue(v)]
    {
      calls := calls + [WriteValue(v)];
    }

    method EndSequence()
      modifies this
      ensures calls == old(calls) + [EndSeq]
    {
      calls := calls + [EndSeq];
    }
  }
}
