/**
 Composition Data page 0 (`config_client.py`): a nested-loop, variable-length parser,
 specified by the serialisation it inverts.
 */
module Composition {
  import opened Prelude

  datatype Element = Element(address: int, location: nat, sigModels: seq<nat>, vendorModels: seq<(nat, nat)>)

  datatype CompositionData = CompositionData(
    companyId: nat, productId: nat, versionId: nat, crpl: nat, features: nat, elements: seq<Element>)

  datatype ConfigError = UnsupportedPage | TruncatedSigModels | TruncatedVendorModels | TruncatedHeader

  // ----- The serialisation -----

  function Le16(v: nat): (b: Bytes)
    requires v < 0x10000
  {
    [v % 256, v / 256]
  }

  predicate Sig16(models: seq<nat>)
  {
    forall i :: 0 <= i < |models| ==> models[i] < 0x10000
  }

  predicate Vendor16(models: seq<(nat, nat)>)
  {
    forall i :: 0 <= i < |models| ==> models[i].0 < 0x10000 && models[i].1 < 0x10000
  }

  predicate ElementOk(e: Element)
  {
    && e.location < 0x10000 && |e.sigModels| < 256 && |e.vendorModels| < 256
    && Sig16(e.sigModels) && Vendor16(e.vendorModels)
  }

  function SigBytes(models: seq<nat>): (b: Bytes)
    requires Sig16(models)
    ensures |b| == 2 * |models|
  {
    if |models| == 0 then [] else Le16(models[0]) + SigBytes(models[1..])
  }

  function VendorBytes(models: seq<(nat, nat)>): (b: Bytes)
    requires Vendor16(models)
    ensures |b| == 4 * |models|
  {
    if |models| == 0 then [] else Le16(models[0].0) + Le16(models[0].1) + VendorBytes(models[1..])
  }

  function ElementBytes(e: Element): (b: Bytes)
    requires ElementOk(e)
    ensures |b| == 4 + 2 * |e.sigModels| + 4 * |e.vendorModels|
  {
    Le16(e.location) + [|e.sigModels|, |e.vendorModels|] + SigBytes(e.sigModels) + VendorBytes(e.vendorModels)
  }

  predicate ElementsOk(es: seq<Element>)
  {
    forall i :: 0 <= i < |es| ==> ElementOk(es[i])
  }

  function ElementsBytes(es: seq<Element>): (b: Bytes)
    requires ElementsOk(es)
    ensures |es| > 0 ==> |b| >= 4
  {
    if |es| == 0 then [] else ElementBytes(es[0]) + ElementsBytes(es[1..])
  }

  /** A composition a node at `base` could report: 16-bit fields, element `i` at `base + i`. */
  ghost predicate WellFormed(c: CompositionData, base: int)
  {
    && c.companyId < 0x10000 && c.productId < 0x10000 && c.versionId < 0x10000
    && c.crpl < 0x10000 && c.features < 0x10000
    && ElementsOk(c.elements)
    && forall i :: 0 <= i < |c.elements| ==> c.elements[i].address == base + i
  }

  function HeaderBytes(c: CompositionData): (b: Bytes)
    requires c.companyId < 0x10000 && c.productId < 0x10000 && c.versionId < 0x10000
    requires c.crpl < 0x10000 && c.features < 0x10000
    ensures |b| == 11
  {
    [0] + Le16(c.companyId) + Le16(c.productId) + Le16(c.versionId) + Le16(c.crpl) + Le16(c.features)
  }

  ghost function Serialize(c: CompositionData, base: int): Bytes
    requires WellFormed(c, base)
  {
    HeaderBytes(c) + ElementsBytes(c.elements)
  }

  // ----- The parser -----

  function U16(data: Bytes, at: nat): (v: nat)
    requires at + 2 <= |data|
    ensures v < 0x10000
  {
    var low: nat, high: nat := data[at], data[at + 1];
    low + 256 * high
  }

  lemma SliceLe16(data: Bytes, from: nat, at: nat)
    requires from <= at && at + 2 <= |data|
    ensures data[from..at + 2] == data[from..at] + Le16(U16(data, at))
  {
  }

  lemma SplitAt(data: Bytes, i: nat, j: nat, k: nat)
    requires i <= j <= k <= |data|
    ensures data[i..k] == data[i..j] + data[j..k]
  {
  }

  lemma SliceElement(data: Bytes, start: nat, vendorStart: nat, end: nat, e: Element)
    requires start + 4 <= vendorStart <= end <= |data| && ElementOk(e)
    requires e.location == U16(data, start)
    requires |e.sigModels| == data[start + 2] && |e.vendorModels| == data[start + 3]
    requires SigBytes(e.sigModels) == data[start + 4..vendorStart]
    requires VendorBytes(e.vendorModels) == data[vendorStart..end]
    ensures ElementBytes(e) == data[start..end]
  {
    hide SigBytes, VendorBytes, Sig16, Vendor16;
    SliceLe16(data, start, start);
    assert data[start..start] == [];
    assert data[start + 2..start + 4] == [data[start + 2], data[start + 3]];
    SplitAt(data, start, start + 2, start + 4);
    SplitAt(data, start, start + 4, vendorStart);
    SplitAt(data, start, vendorStart, end);
  }

  /** The body of the element loop: one element from `start`, or the reason it is cut short. */
  method ParseElement(data: Bytes, start: nat, address: int)
    returns (r: Result<Element, ConfigError>, offset: nat)
    requires start + 4 <= |data|
    ensures r.Ok? ==> ElementOk(r.value) && r.value.address == address
                      && start < offset <= |data| && ElementBytes(r.value) == data[start..offset]
    ensures r.Err? ==> Short(data[start..])
  {
    var location := U16(data, start);
    var numSig := data[start + 2];
    var numVendor := data[start + 3];
    offset := start + 4;
    var sigModels: seq<nat> := [];
    for k := 0 to numSig
      invariant |sigModels| == k && offset == start + 4 + 2 * k <= |data|
      invariant Sig16(sigModels) && SigBytes(sigModels) == data[start + 4..offset]
    {
      if offset + 2 > |data| {
        return Err(TruncatedSigModels), offset;
      }
      SigBytesSnoc(sigModels, U16(data, offset));
      SliceLe16(data, start + 4, offset);
      sigModels := sigModels + [U16(data, offset)];
      offset := offset + 2;
    }
    ghost var vendorStart := offset;
    var vendorModels: seq<(nat, nat)> := [];
    for k := 0 to numVendor
      invariant |vendorModels| == k && offset == vendorStart + 4 * k <= |data|
      invariant Vendor16(vendorModels) && VendorBytes(vendorModels) == data[vendorStart..offset]
    {
      if offset + 4 > |data| {
        return Err(TruncatedVendorModels), offset;
      }
      VendorBytesSnoc(vendorModels, (U16(data, offset), U16(data, offset + 2)));
      SliceLe16(data, vendorStart, offset);
      SliceLe16(data, vendorStart, offset + 2);
      vendorModels := vendorModels + [(U16(data, offset), U16(data, offset + 2))];
      offset := offset + 4;
    }
    r := Ok(Element(address, location, sigModels, vendorModels));
    SliceElement(data, start, vendorStart, offset, r.value);
  }

  /**
   `parse`: accepts exactly the serialisations of well-formed compositions, and returns the
   composition serialised.
   */
  method Parse(data: Bytes, base: int) returns (r: Result<CompositionData, ConfigError>)
    ensures r.Ok? ==> WellFormed(r.value, base) && Serialize(r.value, base) == data
    ensures r.Err? ==> forall c :: WellFormed(c, base) ==> Serialize(c, base) != data
  {
    if |data| < 11 || data[0] != 0 {
      HeaderNeeded(data, base);
      return Err(UnsupportedPage);
    }
    hide ElementBytes, HeaderBytes, ElementsBytes, Serialize, ElementOk, ElementsOk;
    var elements: seq<Element> := [];
    var offset := 11;
    var index := 0;
    while offset + 4 <= |data|
      invariant 11 <= offset <= |data| && index == |elements|
      invariant ElementsOk(elements)
      invariant forall i :: 0 <= i < |elements| ==> elements[i].address == base + i
      invariant ElementsBytes(elements) == data[11..offset]
      decreases |data| - offset
    {
      var element, next := ParseElement(data, offset, base + index);
      if element.Err? {
        TooShort(data, elements, offset, base);
        return Err(element.error);
      }
      AppendElement(data, elements, element.value, offset, next);
      elements := elements + [element.value];
      offset := next;
      index := index + 1;
    }
    if offset != |data| {
      TooShort(data, elements, offset, base);
      return Err(TruncatedHeader);
    }
    var c := CompositionData(U16(data, 1), U16(data, 3), U16(data, 5), U16(data, 7), U16(data, 9), elements);
    SerializeParsed(data, c, base);
    return Ok(c);
  }

  lemma AppendElement(data: Bytes, elements: seq<Element>, e: Element, offset: nat, next: nat)
    requires 11 <= offset <= next <= |data| && ElementsOk(elements) && ElementOk(e)
    requires ElementsBytes(elements) == data[11..offset] && ElementBytes(e) == data[offset..next]
    ensures ElementsOk(elements + [e]) && ElementsBytes(elements + [e]) == data[11..next]
  {
    ElementsBytesSnoc(elements, e);
    assert data[11..next] == data[11..offset] + data[offset..next];
  }

  lemma SerializeParsed(data: Bytes, c: CompositionData, base: int)
    requires |data| >= 11 && data[0] == 0
    requires c.companyId == U16(data, 1) && c.productId == U16(data, 3) && c.versionId == U16(data, 5)
    requires c.crpl == U16(data, 7) && c.features == U16(data, 9)
    requires ElementsOk(c.elements) && ElementsBytes(c.elements) == data[11..]
    requires forall i :: 0 <= i < |c.elements| ==> c.elements[i].address == base + i
    ensures WellFormed(c, base) && Serialize(c, base) == data
  {
    SliceHeader(data, c);
    assert data == data[..11] + data[11..];
  }

  lemma SliceHeader(data: Bytes, c: CompositionData)
    requires |data| >= 11 && data[0] == 0
    requires c.companyId == U16(data, 1) && c.productId == U16(data, 3) && c.versionId == U16(data, 5)
    requires c.crpl == U16(data, 7) && c.features == U16(data, 9)
    ensures HeaderBytes(c) == data[..11]
  {
  }

  /** Page-0 serialisations start with a zero byte and an eleven-byte header. */
  lemma HeaderNeeded(data: Bytes, base: int)
    requires |data| < 11 || data[0] != 0
    ensures forall c :: WellFormed(c, base) ==> Serialize(c, base) != data
  {
  }

  // ----- Why rejection is right -----

  lemma {:induction false} SigBytesSnoc(models: seq<nat>, m: nat)
    requires m < 0x10000 && Sig16(models)
    ensures SigBytes(models + [m]) == SigBytes(models) + Le16(m)
  {
    if |models| > 0 {
      SigBytesSnoc(models[1..], m);
      assert (models + [m])[1..] == models[1..] + [m];
    }
  }

  lemma {:induction false} VendorBytesSnoc(models: seq<(nat, nat)>, m: (nat, nat))
    requires m.0 < 0x10000 && m.1 < 0x10000
    requires Vendor16(models)
    ensures VendorBytes(models + [m]) == VendorBytes(models) + Le16(m.0) + Le16(m.1)
  {
    if |models| > 0 {
      VendorBytesSnoc(models[1..], m);
      assert (models + [m])[1..] == models[1..] + [m];
    }
  }

  lemma {:induction false} ElementsBytesSnoc(es: seq<Element>, e: Element)
    requires ElementsOk(es) && ElementOk(e)
    ensures ElementsBytes(es + [e]) == ElementsBytes(es) + ElementBytes(e)
  {
    if |es| > 0 {
      ElementsBytesSnoc(es[1..], e);
      assert (es + [e])[1..] == es[1..] + [e];
    } else {
      assert es + [e] == [e] && [e][1..] == [];
    }
  }

  lemma Le16Injective(v: nat, w: nat)
    requires v < 0x10000 && w < 0x10000 && Le16(v) == Le16(w)
    ensures v == w
  {
    assert Le16(v)[0] == v % 256 && Le16(v)[1] == v / 256;
  }

  lemma {:induction false} SigBytesInjective(a: seq<nat>, b: seq<nat>)
    requires Sig16(a) && Sig16(b)
    requires SigBytes(a) == SigBytes(b)
    ensures a == b
  {
    if |a| > 0 {
      assert SigBytes(a)[..2] == Le16(a[0]) && SigBytes(a)[2..] == SigBytes(a[1..]);
      assert SigBytes(b)[..2] == Le16(b[0]) && SigBytes(b)[2..] == SigBytes(b[1..]);
      Le16Injective(a[0], b[0]);
      SigBytesInjective(a[1..], b[1..]);
    }
  }

  lemma {:induction false} VendorBytesInjective(a: seq<(nat, nat)>, b: seq<(nat, nat)>)
    requires Vendor16(a) && Vendor16(b)
    requires VendorBytes(a) == VendorBytes(b)
    ensures a == b
  {
    if |a| > 0 {
      assert VendorBytes(a)[..2] == Le16(a[0].0) && VendorBytes(a)[2..4] == Le16(a[0].1);
      assert VendorBytes(b)[..2] == Le16(b[0].0) && VendorBytes(b)[2..4] == Le16(b[0].1);
      assert VendorBytes(a)[4..] == VendorBytes(a[1..]) && VendorBytes(b)[4..] == VendorBytes(b[1..]);
      Le16Injective(a[0].0, b[0].0);
      Le16Injective(a[0].1, b[0].1);
      VendorBytesInjective(a[1..], b[1..]);
    }
  }

  /** Where each part of an element lies in bytes that start with it. */
  lemma ElementParts(e: Element, rest: Bytes)
    requires ElementOk(e)
    ensures var x := ElementBytes(e) + rest;
            var s := 4 + 2 * |e.sigModels|;
            var v := s + 4 * |e.vendorModels|;
            && |x| >= v && x[..2] == Le16(e.location) && x[2] == |e.sigModels| && x[3] == |e.vendorModels|
            && x[4..s] == SigBytes(e.sigModels) && x[s..v] == VendorBytes(e.vendorModels) && x[v..] == rest
  {
    hide SigBytes, VendorBytes, Sig16, Vendor16, Le16;
  }

  /** No element's bytes begin another's: its own counts say where it ends. */
  lemma ElementPrefixFree(a: Element, b: Element, aRest: Bytes, bRest: Bytes)
    requires ElementOk(a) && ElementOk(b)
    requires ElementBytes(a) + aRest == ElementBytes(b) + bRest
    ensures a.(address := b.address) == b && aRest == bRest
  {
    hide ElementBytes, SigBytes, VendorBytes, Sig16, Vendor16, Le16;
    ElementParts(a, aRest);
    ElementParts(b, bRest);
    Le16Injective(a.location, b.location);
    SigBytesInjective(a.sigModels, b.sigModels);
    VendorBytesInjective(a.vendorModels, b.vendorModels);
  }

  predicate SameButAddresses(a: seq<Element>, b: seq<Element>)
  {
    |a| == |b| && forall i :: 0 <= i < |a| ==> a[i].(address := b[i].address) == b[i]
  }

  /** A serialisation that begins with the elements parsed so far continues with whole elements. */
  lemma {:induction false} ParsedIsPrefix(parsed: seq<Element>, es: seq<Element>, rest: Bytes)
    requires ElementsOk(parsed) && ElementsOk(es)
    requires ElementsBytes(parsed) + rest == ElementsBytes(es)
    ensures |parsed| <= |es| && SameButAddresses(parsed, es[..|parsed|])
    ensures rest == ElementsBytes(es[|parsed|..])
  {
    if |parsed| == 0 {
      assert es[0..] == es;
    } else {
      var x := ElementsBytes(parsed[1..]) + rest;
      assert ElementsBytes(parsed) + rest == ElementBytes(parsed[0]) + x;
      ElementPrefixFree(parsed[0], es[0], x, ElementsBytes(es[1..]));
      ParsedIsPrefix(parsed[1..], es[1..], rest);
      assert es[1..][..|parsed| - 1] == es[1..|parsed|];
      assert es[1..][|parsed| - 1..] == es[|parsed|..];
      forall i | 0 <= i < |parsed| ensures parsed[i].(address := es[..|parsed|][i].address) == es[..|parsed|][i] {
        if i > 0 {
          assert parsed[i] == parsed[1..][i - 1] && es[..|parsed|][i] == es[1..][..|parsed| - 1][i - 1];
        }
      }
    }
  }

  /** What is left after the parsed elements is nonempty but shorter than its own counts ask. */
  predicate Short(rest: Bytes)
  {
    |rest| > 0
    && (|rest| < 4 || (var sig: nat, vendor: nat := rest[2], rest[3]; |rest| < 4 + 2 * sig + 4 * vendor))
  }

  lemma TooShort(data: Bytes, parsed: seq<Element>, start: nat, base: int)
    requires 11 <= start <= |data| && ElementsOk(parsed)
    requires ElementsBytes(parsed) == data[11..start]
    requires Short(data[start..])
    ensures forall c :: WellFormed(c, base) ==> Serialize(c, base) != data
  {
    forall c | WellFormed(c, base) ensures Serialize(c, base) != data {
      if Serialize(c, base) == data {
        assert data[11..] == ElementsBytes(c.elements);
        NeverShort(data[11..], parsed, data[start..], c.elements);
      }
    }
  }

  /** What is left after the elements already parsed is either more elements or nothing: never a short one. */
  lemma NeverShort(all: Bytes, parsed: seq<Element>, rest: Bytes, es: seq<Element>)
    requires ElementsOk(parsed) && ElementsOk(es) && all == ElementsBytes(es) && all == ElementsBytes(parsed) + rest
    ensures !Short(rest)
  {
    hide ElementsBytes, Short;
    ParsedIsPrefix(parsed, es, rest);
    NotShort(es[|parsed|..]);
  }

  lemma NotShort(es: seq<Element>)
    requires ElementsOk(es)
    ensures !Short(ElementsBytes(es))
  {
    if |es| > 0 {
      var rest := ElementsBytes(es);
      assert rest[2] == |es[0].sigModels| && rest[3] == |es[0].vendorModels|;
    }
  }

  /** Where each field lies in a header. */
  lemma HeaderParts(c: CompositionData)
    requires c.companyId < 0x10000 && c.productId < 0x10000 && c.versionId < 0x10000
    requires c.crpl < 0x10000 && c.features < 0x10000
    ensures var x := HeaderBytes(c);
            && x[1..3] == Le16(c.companyId) && x[3..5] == Le16(c.productId) && x[5..7] == Le16(c.versionId)
            && x[7..9] == Le16(c.crpl) && x[9..11] == Le16(c.features)
  {
    var x := HeaderBytes(c);
    Pair(x, 1);
    Pair(x, 3);
    Pair(x, 5);
    Pair(x, 7);
    Pair(x, 9);
  }

  lemma Pair(x: Bytes, i: nat)
    requires i + 2 <= |x|
    ensures x[i..i + 2] == [x[i], x[i + 1]]
  {
  }

  lemma HeaderInjective(c: CompositionData, d: CompositionData)
    requires c.companyId < 0x10000 && c.productId < 0x10000 && c.versionId < 0x10000
    requires c.crpl < 0x10000 && c.features < 0x10000
    requires d.companyId < 0x10000 && d.productId < 0x10000 && d.versionId < 0x10000
    requires d.crpl < 0x10000 && d.features < 0x10000
    requires HeaderBytes(c) == HeaderBytes(d)
    ensures c.(elements := []) == d.(elements := [])
  {
    hide HeaderBytes, Le16;
    HeaderParts(c);
    HeaderParts(d);
    Le16Injective(c.companyId, d.companyId);
    Le16Injective(c.productId, d.productId);
    Le16Injective(c.versionId, d.versionId);
    Le16Injective(c.crpl, d.crpl);
    Le16Injective(c.features, d.features);
  }

  /** The parse result is the only composition with that serialisation. */
  lemma SerializeInjective(c: CompositionData, d: CompositionData, base: int)
    requires WellFormed(c, base) && WellFormed(d, base)
    requires Serialize(c, base) == Serialize(d, base)
    ensures c == d
  {
    var x := Serialize(c, base);
    assert x[..11] == HeaderBytes(c) && x[..11] == HeaderBytes(d);
    assert x[11..] == ElementsBytes(c.elements) && x[11..] == ElementsBytes(d.elements);
    hide HeaderBytes, ElementsBytes;
    HeaderInjective(c, d);
    assert ElementsBytes(c.elements) + [] == ElementsBytes(d.elements);
    ParsedIsPrefix(c.elements, d.elements, []);
    NoBytesNoElements(d.elements[|c.elements|..]);
    assert d.elements[..|c.elements|] == d.elements;
    forall i | 0 <= i < |c.elements| ensures c.elements[i] == d.elements[i] {
      assert c.elements[i].address == base + i == d.elements[i].address;
      assert c.elements[i].(address := d.elements[..|c.elements|][i].address) == d.elements[..|c.elements|][i];
    }
  }

  lemma NoBytesNoElements(es: seq<Element>)
    requires ElementsOk(es) && ElementsBytes(es) == []
    ensures es == []
  {
  }
}
