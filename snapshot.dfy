/**
 The applied-spec snapshot: the string the reconciler stores under the "spec"
 annotation of a MyApp. The source serialises the spec as JSON; here the
 encoding is an abstract, fixed-layout one with the two properties the
 reconciler relies on: decoding an encoded spec gives the spec back, and
 anything that is not an encoding (the empty string of a missing annotation
 among them) fails to decode.

 Layout: a tag character, the container port and the service port as four
 base-256 digits each (offset so that every int32 is non-negative), a marker
 for the optional replica count followed by its four digits when present, and
 finally the image, which runs to the end of the string.
 */
module Snapshot {
  import opened Wrappers
  import opened Api

  /** The annotation key of the snapshot. */
  const SpecKey := "spec"

  const Tag: char := 'S'
  const NoReplicas: char := '-'
  const HasReplicas: char := '+'

  /** The offset that maps int32 onto [0, 2^32). */
  const Bias := 0x8000_0000

  function Pow256(k: nat): nat {
    if k == 0 then 1 else 256 * Pow256(k - 1)
  }

  predicate IsByteString(cs: seq<char>) {
    forall i :: 0 <= i < |cs| ==> cs[i] as int < 256
  }

  /** The k least significant base-256 digits of u, least significant first. */
  function Digits(u: nat, k: nat): (r: seq<char>)
    ensures |r| == k && IsByteString(r)
  {
    if k == 0 then [] else [(u % 256) as char] + Digits(u / 256, k - 1)
  }

  /** The number that a string of base-256 digits denotes, least significant first. */
  function Value(cs: seq<char>): nat {
    if cs == [] then 0 else cs[0] as int + 256 * Value(cs[1..])
  }

  lemma {:induction false} ValueOfDigits(u: nat, k: nat)
    requires u < Pow256(k)
    ensures Value(Digits(u, k)) == u
  {
    if k > 0 {
      ValueOfDigits(u / 256, k - 1);
      assert Digits(u, k)[1..] == Digits(u / 256, k - 1);
    }
  }

  lemma {:induction false} DigitsOfValue(cs: seq<char>)
    requires IsByteString(cs)
    ensures Value(cs) < Pow256(|cs|)
    ensures Digits(Value(cs), |cs|) == cs
  {
    if cs != [] {
      var rest := cs[1..];
      assert IsByteString(rest) by {
        forall i | 0 <= i < |rest| ensures rest[i] as int < 256 {
          assert rest[i] == cs[i + 1];
        }
      }
      DigitsOfValue(rest);
      var v := Value(cs);
      assert v == cs[0] as int + 256 * Value(rest);
      assert v % 256 == cs[0] as int && v / 256 == Value(rest);
    }
  }

  lemma WordBound()
    ensures Pow256(4) == 0x1_0000_0000
  {
    assert Pow256(1) == 256;
    assert Pow256(2) == 0x1_0000;
    assert Pow256(3) == 0x100_0000;
  }

  function EncodeInt32(x: Int32): (r: seq<char>)
    ensures |r| == 4
  {
    Digits(x as int + Bias, 4)
  }

  function DecodeInt32(cs: seq<char>): (r: Option<Int32>)
    requires |cs| == 4
  {
    var v := Value(cs);
    if IsByteString(cs) && v < 0x1_0000_0000 then Some((v - Bias) as Int32) else None
  }

  lemma DecodeInt32Encode(x: Int32)
    ensures DecodeInt32(EncodeInt32(x)) == Some(x)
  {
    WordBound();
    ValueOfDigits(x as int + Bias, 4);
  }

  lemma EncodeInt32Decode(cs: seq<char>, x: Int32)
    requires |cs| == 4 && DecodeInt32(cs) == Some(x)
    ensures EncodeInt32(x) == cs
  {
    DigitsOfValue(cs);
  }

  function EncodeReplicas(replicas: Option<Int32>): (r: seq<char>)
    ensures |r| == if replicas.Some? then 5 else 1
  {
    match replicas
    case None => [NoReplicas]
    case Some(n) => [HasReplicas] + EncodeInt32(n)
  }

  /** The snapshot of a spec (the source's json.Marshal of MyAppSpec, which cannot fail). */
  function Encode(spec: MyAppSpec): (r: string)
    ensures |r| >= 10 && r[0] == Tag
  {
    [Tag] + EncodeInt32(spec.containerPort) + EncodeInt32(spec.servicePort)
      + EncodeReplicas(spec.replicas) + spec.image
  }

  /** The spec a snapshot denotes, or None when the string is not a snapshot. */
  function Decode(t: string): (r: Option<MyAppSpec>)
    ensures |t| < 10 ==> r == None
  {
    if |t| < 10 || t[0] != Tag then None
    else
      var containerPort := DecodeInt32(t[1..5]);
      var servicePort := DecodeInt32(t[5..9]);
      if containerPort.None? || servicePort.None? then None
      else if t[9] == NoReplicas then
        Some(MyAppSpec(t[10..], None, containerPort.value, servicePort.value))
      else if t[9] == HasReplicas && |t| >= 14 then
        var replicas := DecodeInt32(t[10..14]);
        if replicas.None? then None
        else Some(MyAppSpec(t[14..], Some(replicas.value), containerPort.value, servicePort.value))
      else None
  }

  /** Round trip: a stored snapshot decodes to the spec it was made from. */
  lemma DecodeEncode(spec: MyAppSpec)
    ensures Decode(Encode(spec)) == Some(spec)
  {
    var t := Encode(spec);
    var cp, sp := EncodeInt32(spec.containerPort), EncodeInt32(spec.servicePort);
    assert t[1..5] == cp && t[5..9] == sp;
    DecodeInt32Encode(spec.containerPort);
    DecodeInt32Encode(spec.servicePort);
    match spec.replicas
    case None =>
      assert t[10..] == spec.image;
    case Some(n) =>
      assert t[10..14] == EncodeInt32(n) && t[14..] == spec.image;
      DecodeInt32Encode(n);
  }

  /** Canonical form: a string that decodes is the encoding of what it decodes to. */
  lemma EncodeDecode(t: string, spec: MyAppSpec)
    requires Decode(t) == Some(spec)
    ensures Encode(spec) == t
  {
    EncodeInt32Decode(t[1..5], spec.containerPort);
    EncodeInt32Decode(t[5..9], spec.servicePort);
    if t[9] == NoReplicas {
      assert t == [t[0]] + t[1..5] + t[5..9] + [t[9]] + t[10..];
    } else {
      EncodeInt32Decode(t[10..14], spec.replicas.value);
      assert t == [t[0]] + t[1..5] + t[5..9] + [t[9]] + t[10..14] + t[14..];
    }
  }

  /** Two specs share a snapshot only if they are equal. */
  lemma EncodeInjective(a: MyAppSpec, b: MyAppSpec)
    requires Encode(a) == Encode(b)
    ensures a == b
  {
    DecodeEncode(a);
    DecodeEncode(b);
  }
}
