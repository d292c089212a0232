/** The room identity generator: a fixed-length name whose letters are
    drawn from a charset. The random source is injected as the sequence of
    draws it would have produced, each an index into the charset. */
module RoomName {

  /** The letters a room name is made of. */
  const Charset := "ABCDEFGHIJKLMNOPQRSTUVWXYZ"

  /** The length of every room name. */
  const NameLength := 6

  /** `name` is what `draws` spell over `charset`: one letter per draw, in order. */
  ghost predicate Spells(name: string, charset: string, draws: seq<nat>)
  {
    && |name| == |draws|
    && forall i :: 0 <= i < |draws| ==> draws[i] < |charset| && name[i] == charset[draws[i]]
  }

  /** Every draw the source can produce is an index into `charset`. */
  predicate ValidDraws(draws: seq<nat>, count: nat, charset: string)
  {
    count <= |draws| && forall i :: 0 <= i < count ==> draws[i] < |charset|
  }

  /** Fills a buffer of `length` characters, the i-th one picked from
      `charset` by the i-th draw. */
  method StringWithCharset(length: nat, charset: string, draws: seq<nat>) returns (s: string)
    requires ValidDraws(draws, length, charset)
    ensures Spells(s, charset, draws[..length])
    ensures forall i :: 0 <= i < |s| ==> s[i] in charset
  {
    var b := new char[length];
    for i := 0 to length
      invariant forall j :: 0 <= j < i ==> b[j] == charset[draws[j]]
    {
      b[i] := charset[draws[i]];
    }
    s := b[..];
  }

  /** A six-letter upper-case room name. */
  method CreateRoomName(draws: seq<nat>) returns (name: string)
    requires ValidDraws(draws, NameLength, Charset)
    ensures |name| == NameLength
    ensures forall i :: 0 <= i < |name| ==> 'A' <= name[i] <= 'Z'
    ensures Spells(name, Charset, draws[..NameLength])
  {
    name := StringWithCharset(NameLength, Charset, draws);
    forall i | 0 <= i < |name|
      ensures 'A' <= name[i] <= 'Z'
    {
      CharsetIsAlphabet(draws[i]);
    }
  }

  /** The k-th charset letter is the k-th letter after 'A'. */
  lemma CharsetIsAlphabet(k: nat)
    requires k < |Charset|
    ensures |Charset| == 26
    ensures Charset[k] as int == 'A' as int + k
  {
    assert Charset == ['A', 'B', 'C', 'D', 'E', 'F', 'G', 'H', 'I', 'J', 'K', 'L', 'M',
                       'N', 'O', 'P', 'Q', 'R', 'S', 'T', 'U', 'V', 'W', 'X', 'Y', 'Z'];
  }

  /** The draws a name of upper-case letters was spelled from. */
  function LetterIndices(name: string): (draws: seq<nat>)
    requires forall i :: 0 <= i < |name| ==> 'A' <= name[i] <= 'Z'
    ensures |draws| == |name|
    ensures forall i :: 0 <= i < |draws| ==> draws[i] < |Charset|
  {
    seq(|name|, i requires 0 <= i < |name| => (name[i] as int - 'A' as int) as nat)
  }

  /** Reading the draws back from a spelled name gives the draws. */
  lemma LetterIndicesOfSpelled(name: string, draws: seq<nat>)
    requires Spells(name, Charset, draws)
    ensures forall i :: 0 <= i < |name| ==> 'A' <= name[i] <= 'Z'
    ensures LetterIndices(name) == draws
  {
    forall i | 0 <= i < |name|
      ensures 'A' <= name[i] <= 'Z' && name[i] as int - 'A' as int == draws[i]
    {
      CharsetIsAlphabet(draws[i]);
    }
  }

  /** Spelling the draws read back from an upper-case name gives the name. */
  lemma SpelledFromLetterIndices(name: string)
    requires forall i :: 0 <= i < |name| ==> 'A' <= name[i] <= 'Z'
    ensures Spells(name, Charset, LetterIndices(name))
  {
    var draws := LetterIndices(name);
    forall i | 0 <= i < |name|
      ensures name[i] == Charset[draws[i]]
    {
      CharsetIsAlphabet(draws[i]);
    }
  }

  /** The same draws always give the same name, and different draws over
      the alphabet give different names. */
  lemma SpellsIsOneToOne(name1: string, draws1: seq<nat>, name2: string, draws2: seq<nat>)
    requires Spells(name1, Charset, draws1) && Spells(name2, Charset, draws2)
    ensures name1 == name2 <==> draws1 == draws2
  {
    LetterIndicesOfSpelled(name1, draws1);
    LetterIndicesOfSpelled(name2, draws2);
    if draws1 == draws2 {
      assert forall i :: 0 <= i < |name1| ==> name1[i] == name2[i];
    }
  }
}
