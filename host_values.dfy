/**
 * How the native layer reads host values: the classification `send` applies
 * to its value argument, the list built from a host array, the default time,
 * and the plain object that describes a patch on the host side.
 */
module HostValues {
  import opened Wrappers
  import opened Types
  import opened JsValues
  import opened Callbacks

  /** `As<Napi::Number>().Int32Value()`: ToInt32 of a number; any other value is a type error. */
  function Int32Value(v: JsValue): (r: Option<int>)
    ensures r.Some? <==> v.Number?
    ensures r.Some? ==> -TWO_31 <= r.value < TWO_31
  {
    if v.Number? then Some(ToInt32(v.n)) else None
  }

  /**
   * The list the element loop of `send` builds from a host array: numbers
   * become floats and strings symbols, in array order; every other element,
   * a hole included, is skipped.
   */
  function ListAtoms(elems: seq<JsValue>): (l: PdList)
    ensures |l| <= |elems|
    decreases |elems|
  {
    if elems == [] then []
    else
      var last := elems[|elems| - 1];
      ListAtoms(elems[..|elems| - 1]) + (match ParseAtom(last) case Some(a) => [a] case None => [])
  }

  /** The list of a concatenation is the concatenation of the lists: elements are kept or dropped one by one. */
  lemma {:induction false} ListAtomsAppend(a: seq<JsValue>, b: seq<JsValue>)
    ensures ListAtoms(a + b) == ListAtoms(a) + ListAtoms(b)
    decreases |b|
  {
    if b == [] {
      assert a + b == a;
    } else {
      var b' := b[..|b| - 1];
      assert (a + b)[..|a + b| - 1] == a + b';
      assert (a + b)[|a + b| - 1] == b[|b| - 1];
      ListAtomsAppend(a, b');
      var t := match ParseAtom(b[|b| - 1]) case Some(x) => [x] case None => [];
      assert ListAtoms(a + b) == ListAtoms(a + b') + t;
      assert ListAtoms(b) == ListAtoms(b') + t;
    }
  }

  /** Nothing is dropped exactly when every element is a number or a string. */
  lemma {:induction false} ListAtomsKeepsAll(elems: seq<JsValue>)
    ensures |ListAtoms(elems)| == |elems| <==> forall i | 0 <= i < |elems| :: elems[i].Number? || elems[i].Str?
    decreases |elems|
  {
    if elems != [] {
      var init := elems[..|elems| - 1];
      ListAtomsKeepsAll(init);
      assert forall i | 0 <= i < |init| :: init[i] == elems[i];
    }
  }

  /** An array with no number and no string gives the empty list. */
  lemma {:induction false} ListAtomsNone(elems: seq<JsValue>)
    requires forall i | 0 <= i < |elems| :: !elems[i].Number? && !elems[i].Str?
    ensures ListAtoms(elems) == []
    decreases |elems|
  {
    if elems != [] {
      var init := elems[..|elems| - 1];
      assert forall i | 0 <= i < |init| :: init[i] == elems[i];
      ListAtomsNone(init);
    }
  }

  /** The host array built for a list on the way in reads back as that list on the way out. */
  lemma {:induction false} ListAtomsOfAtomValues(l: PdList)
    ensures ListAtoms(AtomValues(l)) == l
    decreases |l|
  {
    if l != [] {
      var init := l[..|l| - 1];
      assert AtomValues(l)[..|l| - 1] == AtomValues(init);
      ListAtomsOfAtomValues(init);
      assert ParseAtom(AtomValue(l[|l| - 1])) == Some(l[|l| - 1]);
      assert init + [l[|l| - 1]] == l;
    }
  }

  /** The element loop of `send`: the list built from the array's elements, in order. */
  method CollectAtoms(elems: seq<JsValue>) returns (l: PdList)
    ensures l == ListAtoms(elems)
  {
    l := [];
    var i := 0;
    while i < |elems|
      invariant 0 <= i <= |elems|
      invariant l == ListAtoms(elems[..i])
    {
      var val := elems[i];
      if val.Number? {
        l := l + [FloatAtom(val.n)];
      } else if val.Str? {
        l := l + [SymbolAtom(val.s)];
      }
      assert elems[..i + 1][..i] == elems[..i];
      i := i + 1;
    }
    assert elems[..i] == elems;
  }

  /**
   * The payload `send` builds for a host value: a string is a symbol, a
   * number a float, a non-empty array a list of its numbers and strings (even
   * when that list is empty), and anything else, the empty array included, a
   * bang.
   */
  function Classify(value: JsValue): (p: Payload)
    ensures p.Symbol? <==> value.Str?
    ensures p.Float? <==> value.Number?
    ensures p.List? <==> value.Array? && |value.elems| > 0
    ensures p.Bang? <==> !value.Str? && !value.Number? && !(value.Array? && |value.elems| > 0)
    ensures value.Str? ==> p == Symbol(value.s)
    ensures value.Number? ==> p == Float(value.n)
    ensures p.List? ==> p.list == ListAtoms(value.elems)
  {
    match value
    case Str(s) => Symbol(s)
    case Number(n) => Float(n)
    case Array(elems) => if |elems| > 0 then List(ListAtoms(elems)) else Bang
    case _ => Bang
  }

  /** The due time of a send: the third argument when it is a number, otherwise 0. */
  function SendTime(time: JsValue): (t: real)
    ensures time.Number? ==> t == time.n
    ensures !time.Number? ==> t == 0.0
  {
    if time.Number? then time.n else 0.0
  }

  /** The value a listener receives from the message callback: its second argument, undefined for a bang. */
  function DispatchedValue(args: seq<JsValue>): JsValue {
    if |args| >= 2 then args[1] else Undefined
  }

  /**
   * Sending back what a listener received reproduces the message's payload,
   * except that an empty list arrives as an empty array and is sent back as a
   * bang.
   */
  lemma SendEchoesReceived(m: PdMsg)
    ensures Classify(DispatchedValue(CallbackArgs(m))) == (if m.payload == List([]) then Bang else m.payload)
  {
    if m.payload.List? {
      ListAtomsOfAtomValues(m.payload.list);
    }
  }

  /** The properties of a host patch object. */
  const DollarZeroKey: string := "$0"

  predicate HasPatchKeys(v: JsValue) {
    Has(v, DollarZeroKey) && Has(v, "filename") && Has(v, "path") && Has(v, "isValid")
  }

  /** The plain object `openPatch` returns for a patch description. */
  function PatchObject(infos: PatchInfos): (v: JsValue)
    ensures HasPatchKeys(v) && |v.fields| == 4
    ensures v.fields[DollarZeroKey] == Number(infos.dollarZero as real)
    ensures v.fields["isValid"] == Bool(infos.isValid)
  {
    Object(map["isValid" := Bool(infos.isValid), "filename" := Str(infos.filename),
               "path" := Str(infos.path), DollarZeroKey := Number(infos.dollarZero as real)])
  }

  /**
   * The fields of a patch object after `closePatch`: `$0` and `isValid` are
   * those of the description the close returned, every other property is
   * left as it was.
   */
  function ClosedPatchFields(fields: map<string, JsValue>, infos: PatchInfos): (r: map<string, JsValue>)
    ensures r.Keys == fields.Keys + {DollarZeroKey, "isValid"}
    ensures r[DollarZeroKey] == Number(infos.dollarZero as real) && r["isValid"] == Bool(infos.isValid)
    ensures forall k | k in fields && k != DollarZeroKey && k != "isValid" :: r[k] == fields[k]
  {
    fields[DollarZeroKey := Number(infos.dollarZero as real)]["isValid" := Bool(infos.isValid)]
  }

  /**
   * A patch object made by `openPatch` names its own patch: the `$0` that
   * `closePatch` reads back from it is the one the description carried,
   * whenever that fits in 32 bits.
   */
  lemma PatchObjectDollarZero(infos: PatchInfos)
    requires -TWO_31 <= infos.dollarZero < TWO_31
    ensures Int32Value(PatchObject(infos).fields[DollarZeroKey]) == Some(infos.dollarZero)
  {
    assert Truncate(infos.dollarZero as real) == infos.dollarZero;
  }
}
