/** Owner names: presentation spelling, wire labels, and the canonical identity between them. */
module CanonicalNames {

  type Byte = b: int | 0 <= b < 256
  type Text = seq<Byte>

  const BACKSLASH: Byte := 92
  const DOT: Byte := 46
  const STAR: Byte := 42
  const ZERO: Byte := 48

  predicate IsDigit(b: Byte) { 48 <= b <= 57 }

  predicate IsUpper(b: Byte) { 65 <= b <= 90 }

  function Lower(b: Byte): Byte { if IsUpper(b) then b + 32 else b }

  /** The octet of a decimal escape; values above 255 wrap. */
  function Decimal(a: Byte, b: Byte, c: Byte): Byte { ((a - ZERO) * 100 + (b - ZERO) * 10 + (c - ZERO)) % 256 }

  /** One step of the label scanner: the octet at the front and how much text it took. */
  function ScanOctet(t: Text): (r: (Byte, nat))
    requires t != []
    ensures 1 <= r.1 <= |t|
  {
    if t[0] == BACKSLASH && |t| > 1 then
      if |t| > 3 && IsDigit(t[1]) && IsDigit(t[2]) && IsDigit(t[3])
      then (Decimal(t[1], t[2], t[3]), 4)
      else (t[1], 2)
    else (t[0], 1)
  }

  /** The wire octets a presentation label denotes, lowercased. */
  function WireLabel(t: Text): Text {
    if t == [] then [] else
    var (b, n) := ScanOctet(t);
    [Lower(b)] + WireLabel(t[n..])
  }

  /** The scanner as a loop over the label. */
  method CanonicalLabelBytes(text: Text) returns (out: Text)
    ensures out == WireLabel(text)
  {
    hide WireLabel, Decimal;
    out := [];
    var i := 0;
    while i < |text|
      invariant 0 <= i <= |text|
      invariant out + WireLabel(text[i..]) == WireLabel(text)
    {
      ghost var rest, start, before := text[i..], i, out;
      WireStep(text, i);
      var b := text[i];
      if b == BACKSLASH && i + 1 < |text| {
        if i + 3 < |text| && IsDigit(text[i + 1]) && IsDigit(text[i + 2]) && IsDigit(text[i + 3]) {
          b := Decimal(text[i + 1], text[i + 2], text[i + 3]);
          i := i + 3;
        } else {
          b := text[i + 1];
          i := i + 1;
        }
      }
      if IsUpper(b) { b := b + 32; }
      out := out + [b];
      i := i + 1;
      assert b == Lower(ScanOctet(rest).0) && i == start + ScanOctet(rest).1;
      assert out + WireLabel(text[i..]) == before + WireLabel(rest);
    }
    assert text[i..] == [];
    NoOctets();
  }

  lemma NoOctets()
    ensures WireLabel([]) == []
  {
  }

  lemma WireStep(text: Text, i: nat)
    requires i < |text|
    ensures var (b, n) := ScanOctet(text[i..]); WireLabel(text[i..]) == [Lower(b)] + WireLabel(text[i + n..])
  {
    var n := ScanOctet(text[i..]).1;
    assert text[i..][n..] == text[i + n..];
  }

  /** Octets that may stand for themselves in a canonical label. */
  predicate Plain(c: Byte) { c != DOT && c != BACKSLASH && c != STAR && 33 <= c <= 126 }

  function EncodeOctet(c: Byte): Text {
    if c == DOT || c == BACKSLASH || c == STAR then [BACKSLASH, c]
    else if Plain(c) then [c]
    else [BACKSLASH, ZERO + c / 100, ZERO + c / 10 % 10, ZERO + c % 10]
  }

  function EncodeOctets(raw: Text): Text {
    if raw == [] then [] else EncodeOctet(raw[0]) + EncodeOctets(raw[1..])
  }

  /** The canonical spelling of a label: a bare asterisk only for the wildcard label itself. */
  function CanonicalLabel(text: Text): Text {
    var raw := WireLabel(text);
    if raw == [STAR] then [STAR] else EncodeOctets(raw)
  }

  predicate Lowered(raw: Text) { forall i :: 0 <= i < |raw| ==> !IsUpper(raw[i]) }

  lemma WireLabelIsLowered(t: Text)
    ensures Lowered(WireLabel(t))
    ensures t != [] ==> WireLabel(t) != []
  {
    if t != [] { WireLabelIsLowered(t[ScanOctet(t).1..]); }
  }

  /** Scanning over one encoded octet gives that octet back, whatever follows it. */
  lemma ScanEncoded(c: Byte, rest: Text)
    ensures ScanOctet(EncodeOctet(c) + rest) == (c, |EncodeOctet(c)|)
  {
    var t := EncodeOctet(c) + rest;
    if c == DOT || c == BACKSLASH || c == STAR {
      assert t[0] == BACKSLASH && t[1] == c && !IsDigit(c);
    } else if Plain(c) {
      assert t[0] == c;
    } else {
      assert t[1] == ZERO + c / 100 && t[2] == ZERO + c / 10 % 10 && t[3] == ZERO + c % 10;
      assert c / 100 * 100 + c / 10 % 10 * 10 + c % 10 == c;
    }
  }

  lemma {:induction false} DecodeEncoded(raw: Text)
    requires Lowered(raw)
    ensures WireLabel(EncodeOctets(raw)) == raw
  {
    if raw != [] {
      var rest := EncodeOctets(raw[1..]);
      ScanEncoded(raw[0], rest);
      assert (EncodeOctet(raw[0]) + rest)[|EncodeOctet(raw[0])|..] == rest;
      DecodeEncoded(raw[1..]);
    }
  }

  /** Decoding a canonical label gives back the wire octets of the label it came from. */
  lemma CanonicalLabelRoundTrip(text: Text)
    ensures WireLabel(CanonicalLabel(text)) == WireLabel(text)
  {
    WireLabelIsLowered(text);
    DecodeEncoded(WireLabel(text));
    if WireLabel(text) == [STAR] { assert [STAR][1..] == []; }
  }

  lemma CanonicalLabelIdentity(a: Text, b: Text)
    ensures CanonicalLabel(a) == CanonicalLabel(b) <==> WireLabel(a) == WireLabel(b)
  {
    CanonicalLabelRoundTrip(a);
    CanonicalLabelRoundTrip(b);
  }

  // ---------------------------------------------------------------- whole names

  /** The wire labels of a name given as its presentation labels, most specific first. */
  function WireLabels(labels: seq<Text>): seq<Text> {
    if labels == [] then [] else [WireLabel(labels[0])] + WireLabels(labels[1..])
  }

  function JoinCanonical(labels: seq<Text>): Text {
    if labels == [] then [] else CanonicalLabel(labels[0]) + [DOT] + JoinCanonical(labels[1..])
  }

  /** The canonical presentation of a name; the root is a lone dot. */
  function CanonicalName(labels: seq<Text>): Text {
    if labels == [] then [DOT] else JoinCanonical(labels)
  }

  predicate NoEmptyLabel(labels: seq<Text>) { forall i :: 0 <= i < |labels| ==> labels[i] != [] }

  /** The first unescaped dot of a text, or its length. */
  function LabelEnd(t: Text): (n: nat)
    ensures n <= |t|
  {
    if t == [] || t[0] == DOT then 0
    else if t[0] == BACKSLASH && |t| > 1 then 2 + LabelEnd(t[2..])
    else 1 + LabelEnd(t[1..])
  }

  /** No encoded octet holds an unescaped dot, so the label ends at the dot that follows it. */
  lemma {:induction false} EncodedLabelEnd(raw: Text, rest: Text)
    ensures LabelEnd(EncodeOctets(raw) + [DOT] + rest) == |EncodeOctets(raw)|
  {
    var t := EncodeOctets(raw) + [DOT] + rest;
    if raw != [] {
      var tail := EncodeOctets(raw[1..]) + [DOT] + rest;
      EncodedLabelEnd(raw[1..], rest);
      var e := EncodeOctet(raw[0]);
      assert t == e + tail;
      if |e| == 1 {
        assert t[1..] == tail;
      } else if |e| == 2 {
        assert t[2..] == tail;
      } else {
        var t2 := t[2..];
        assert t2 == [e[2], e[3]] + tail && t2[0] == e[2];
        var t3 := t2[1..];
        assert t3 == [e[3]] + tail && t3[1..] == tail;
        assert LabelEnd(t3) == 1 + LabelEnd(tail);
        assert LabelEnd(t2) == 1 + LabelEnd(t3);
      }
    }
  }

  lemma CanonicalLabelEnd(text: Text, rest: Text)
    ensures LabelEnd(CanonicalLabel(text) + [DOT] + rest) == |CanonicalLabel(text)|
  {
    EncodedLabelEnd(WireLabel(text), rest);
    if WireLabel(text) == [STAR] { assert ([STAR] + [DOT] + rest)[1..] == [DOT] + rest; }
  }

  lemma {:induction false} JoinedNamesAgree(a: seq<Text>, b: seq<Text>)
    requires JoinCanonical(a) == JoinCanonical(b)
    ensures WireLabels(a) == WireLabels(b)
  {
    if a == [] || b == [] {
      assert a == [] && b == [];
    } else {
      var ra, rb := JoinCanonical(a[1..]), JoinCanonical(b[1..]);
      var la, lb := CanonicalLabel(a[0]), CanonicalLabel(b[0]);
      CanonicalLabelEnd(a[0], ra);
      CanonicalLabelEnd(b[0], rb);
      assert la == (la + [DOT] + ra)[..|la|];
      assert lb == (lb + [DOT] + rb)[..|la|];
      assert ra == (la + [DOT] + ra)[|la| + 1..];
      assert rb == (lb + [DOT] + rb)[|la| + 1..];
      CanonicalLabelIdentity(a[0], b[0]);
      JoinedNamesAgree(a[1..], b[1..]);
    }
  }

  lemma {:induction false} EqualWireJoinsEqual(a: seq<Text>, b: seq<Text>)
    requires WireLabels(a) == WireLabels(b)
    ensures JoinCanonical(a) == JoinCanonical(b)
  {
    if a != [] && b != [] {
      assert WireLabels(a)[0] == WireLabels(b)[0];
      assert WireLabels(a)[1..] == WireLabels(a[1..]) && WireLabels(b)[1..] == WireLabels(b[1..]);
      EqualWireJoinsEqual(a[1..], b[1..]);
    }
  }

  /** Canonical identity: two spellings have one canonical name exactly when they are one wire name. */
  lemma CanonicalNameIdentity(a: seq<Text>, b: seq<Text>)
    requires NoEmptyLabel(a) && NoEmptyLabel(b)
    ensures CanonicalName(a) == CanonicalName(b) <==> WireLabels(a) == WireLabels(b)
  {
    if a == [] || b == [] {
      if a != [] { JoinedNotRoot(a); }
      if b != [] { JoinedNotRoot(b); }
    } else {
      if CanonicalName(a) == CanonicalName(b) { JoinedNamesAgree(a, b); }
      if WireLabels(a) == WireLabels(b) { EqualWireJoinsEqual(a, b); }
    }
  }

  lemma JoinedNotRoot(a: seq<Text>)
    requires a != [] && NoEmptyLabel(a)
    ensures JoinCanonical(a) != [DOT]
  {
    WireLabelIsLowered(a[0]);
    CanonicalLabelRoundTrip(a[0]);
    assert CanonicalLabel(a[0]) != [];
    assert |JoinCanonical(a)| >= 2;
  }

  // ---------------------------------------------------------------- canonical order

  type Label = Text
  type Name = seq<Label>

  /** Octet-wise comparison: negative, zero or positive. */
  function CompareBytes(a: Text, b: Text): int {
    if a == [] then (if b == [] then 0 else -1)
    else if b == [] then 1
    else if a[0] != b[0] then (if a[0] < b[0] then -1 else 1)
    else CompareBytes(a[1..], b[1..])
  }

  lemma {:induction false} CompareBytesLaws(a: Text, b: Text)
    ensures CompareBytes(a, b) == 0 <==> a == b
    ensures CompareBytes(b, a) == -CompareBytes(a, b)
    ensures -1 <= CompareBytes(a, b) <= 1
  {
    if a != [] && b != [] {
      CompareBytesLaws(a[1..], b[1..]);
      if a[0] == b[0] && a[1..] == b[1..] { assert a == [a[0]] + a[1..] && b == [b[0]] + b[1..]; }
    }
  }

  lemma {:induction false} CompareBytesTransitive(a: Text, b: Text, c: Text)
    requires CompareBytes(a, b) < 0 && CompareBytes(b, c) < 0
    ensures CompareBytes(a, c) < 0
  {
    if a != [] && b != [] && c != [] && a[0] == b[0] == c[0] { CompareBytesTransitive(a[1..], b[1..], c[1..]); }
  }

  function Parent(n: Name): Name
    requires n != []
  { n[..|n| - 1] }

  function Top(n: Name): Label
    requires n != []
  { n[|n| - 1] }

  /** Canonical order of wire names: label by label from the root. */
  predicate Less(a: Name, b: Name) {
    if b == [] then false
    else if a == [] then true
    else
      var c := CompareBytes(Top(a), Top(b));
      c < 0 || (c == 0 && Less(Parent(a), Parent(b)))
  }

  /** The comparison as the signer runs it, from the last label inwards. */
  method CanonicalLess(a: Name, b: Name) returns (r: bool)
    ensures r == Less(a, b)
  {
    var i := 0;
    assert a[..|a|] == a && b[..|b|] == b;
    while true
      invariant 0 <= i <= |a| && i <= |b|
      invariant Less(a, b) == Less(a[..|a| - i], b[..|b| - i])
      decreases |a| - i
    {
      var aIdx, bIdx := |a| - 1 - i, |b| - 1 - i;
      if aIdx < 0 && bIdx < 0 { return false; }
      if aIdx < 0 { return true; }
      if bIdx < 0 { return false; }
      var c := CompareBytes(a[aIdx], b[bIdx]);
      assert a[..|a| - i][..|a| - i - 1] == a[..|a| - i - 1];
      assert b[..|b| - i][..|b| - i - 1] == b[..|b| - i - 1];
      if c < 0 { return true; }
      if c > 0 { return false; }
      CompareBytesLaws(a[aIdx], b[bIdx]);
      i := i + 1;
    }
  }

  /** Exactly one of less, equal, greater. */
  lemma {:induction false} LessTrichotomy(a: Name, b: Name)
    ensures Less(a, b) || a == b || Less(b, a)
    ensures !(Less(a, b) && a == b) && !(Less(a, b) && Less(b, a))
  {
    if a != [] && b != [] {
      CompareBytesLaws(Top(a), Top(b));
      LessTrichotomy(Parent(a), Parent(b));
      if Top(a) == Top(b) && Parent(a) == Parent(b) { assert a == Parent(a) + [Top(a)] && b == Parent(b) + [Top(b)]; }
    }
  }

  lemma {:induction false} LessTransitive(a: Name, b: Name, c: Name)
    requires Less(a, b) && Less(b, c)
    ensures Less(a, c)
  {
    if a != [] {
      CompareBytesLaws(Top(a), Top(b));
      CompareBytesLaws(Top(b), Top(c));
      if CompareBytes(Top(a), Top(b)) < 0 && CompareBytes(Top(b), Top(c)) < 0 {
        CompareBytesTransitive(Top(a), Top(b), Top(c));
      } else if Top(a) == Top(b) == Top(c) {
        LessTransitive(Parent(a), Parent(b), Parent(c));
      }
    }
  }

  /** n lies at or below p: p is the end of n's label list. */
  predicate Within(n: Name, p: Name) { |n| >= |p| && n[|n| - |p|..] == p }

  lemma WithinParent(n: Name, p: Name)
    requires n != [] && p != []
    ensures Within(n, p) <==> Top(n) == Top(p) && Within(Parent(n), Parent(p))
  {
    if |n| >= |p| {
      var off := |n| - |p|;
      assert n[off..] == n[off..|n| - 1] + [Top(n)];
      assert p == Parent(p) + [Top(p)];
      assert Parent(n)[off..] == n[off..|n| - 1];
      if Within(n, p) {
        assert n[off..][|p| - 1] == p[|p| - 1];
        assert n[off..][..|p| - 1] == p[..|p| - 1];
        assert n[off..][..|p| - 1] == n[off..|n| - 1];
      }
    }
  }

  /** A name comes before everything below it. */
  lemma {:induction false} SubtreeFirst(p: Name, n: Name)
    requires Within(n, p) && n != p
    ensures Less(p, n)
  {
    if p != [] {
      WithinParent(n, p);
      CompareBytesLaws(Top(p), Top(n));
      assert n == Parent(n) + [Top(n)] && p == Parent(p) + [Top(p)];
      SubtreeFirst(Parent(p), Parent(n));
    }
  }

  /** A subtree is contiguous: what lies between two of its names is in it. */
  lemma {:induction false} SubtreeContiguous(p: Name, a: Name, n: Name, b: Name)
    requires Within(a, p) && Within(b, p) && Less(a, n) && Less(n, b)
    ensures Within(n, p)
  {
    if p != [] {
      WithinParent(a, p);
      WithinParent(b, p);
      WithinParent(n, p);
      CompareBytesLaws(Top(a), Top(n));
      CompareBytesLaws(Top(n), Top(b));
      SubtreeContiguous(Parent(p), Parent(a), Parent(n), Parent(b));
    } else {
      assert n[|n|..] == [];
    }
  }
}
