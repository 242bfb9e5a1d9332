/** The C string routines on the way of a card's name from the driver's table to the caller. */
module Names {
  const NUL: char := '\0'

  predicate NoNul(s: string) {
    forall i :: 0 <= i < |s| ==> s[i] != NUL
  }

  /** What a C string in a buffer spells: everything before its first NUL. */
  function Decode(buffer: string): (s: string)
    ensures s <= buffer && NoNul(s)
    ensures |s| < |buffer| ==> buffer[|s|] == NUL
  {
    if buffer == [] || buffer[0] == NUL then [] else [buffer[0]] + Decode(buffer[1..])
  }

  lemma {:induction false} DecodeStops(s: string, rest: string)
    requires NoNul(s) && (rest == [] || rest[0] == NUL)
    ensures Decode(s + rest) == s
  {
    if s == [] {
      assert s + rest == rest;
    } else {
      DecodeStops(s[1..], rest);
      assert (s + rest)[1..] == s[1..] + rest;
    }
  }

  /** strcpy: the string and its NUL; the rest of the destination keeps what it held. */
  method Strcpy(dst: array<char>, src: string)
    requires NoNul(src) && |src| < dst.Length
    modifies dst
    ensures dst[..] == src + [NUL] + old(dst[..])[|src| + 1..]
  {
    for i := 0 to |src|
      invariant forall k :: 0 <= k < i ==> dst[k] == src[k]
      invariant forall k :: i <= k < dst.Length ==> dst[k] == old(dst[k])
    {
      dst[i] := src[i];
    }
    dst[|src|] := NUL;
    assert forall k :: 0 <= k < dst.Length ==>
             dst[k] == (src + [NUL] + old(dst[..])[|src| + 1..])[k];
  }

  /** What strncpy leaves in the first n characters: the string, padded with NULs. */
  function Padded(src: string, n: nat): (out: string)
    ensures |out| == n
    ensures forall k :: 0 <= k < n ==> out[k] == if k < |Decode(src)| then src[k] else NUL
  {
    var s := Decode(src);
    if n <= |s| then s[..n] else s + seq(n - |s|, _ => NUL)
  }

  /** strncpy: it stops reading at the source's NUL. */
  method Strncpy(dst: array<char>, src: array<char>, n: nat)
    requires dst != src && n <= dst.Length
    requires n <= src.Length || |Decode(src[..])| < src.Length
    modifies dst
    ensures dst[..] == Padded(src[..], n) + old(dst[..])[n..]
  {
    var i := 0;
    ghost var s := Decode(src[..]);
    while i < n && src[i] != NUL
      invariant i <= n && i <= |s|
      invariant i < n ==> i < src.Length
      invariant forall k :: 0 <= k < i ==> dst[k] == s[k]
      invariant forall k :: i <= k < dst.Length ==> dst[k] == old(dst[k])
    {
      StillInside(src[..], i);
      dst[i] := src[i];
      i := i + 1;
    }
    if i < n {
      StopsHere(src[..], i);
    }
    ghost var stop := i;
    while i < n
      invariant stop <= i <= n
      invariant forall k :: 0 <= k < stop ==> dst[k] == s[k]
      invariant forall k :: stop <= k < i ==> dst[k] == NUL
      invariant forall k :: i <= k < dst.Length ==> dst[k] == old(dst[k])
    {
      dst[i] := NUL;
      i := i + 1;
    }
    ghost var out := Padded(src[..], n) + old(dst[..])[n..];
    assert forall k :: 0 <= k < dst.Length ==> dst[k] == out[k];
  }

  lemma StillInside(buffer: string, i: nat)
    requires i < |buffer| && i <= |Decode(buffer)| && buffer[i] != NUL
    ensures i < |Decode(buffer)| && Decode(buffer)[i] == buffer[i]
  {
  }

  lemma StopsHere(buffer: string, i: nat)
    requires i < |buffer| && i <= |Decode(buffer)| && buffer[i] == NUL
    ensures i == |Decode(buffer)|
  {
  }

  /** A buffer that strcpy filled with a name. */
  predicate Spells(buffer: string, name: string) {
    && NoNul(name) && |name| < |buffer|
    && buffer[..|name|] == name && buffer[|name|] == NUL
  }

  lemma SpelledName(buffer: string, name: string)
    requires Spells(buffer, name)
    ensures Decode(buffer) == name
  {
    DecodeStops(name, buffer[|name|..]);
    assert buffer == name + buffer[|name|..];
  }

  /**
   The name survives the whole chain: copied out with more room than its length it decodes to
   itself, and with less the caller gets exactly its first n characters.
   */
  lemma NameSurvives(buffer: string, name: string, n: nat)
    requires Spells(buffer, name)
    ensures n > |name| ==> Decode(Padded(buffer, n)) == name
    ensures n <= |name| ==> Padded(buffer, n) == name[..n]
  {
    SpelledName(buffer, name);
    if n > |name| {
      DecodeStops(name, seq(n - |name|, _ => NUL));
    }
  }

  // ---------- strstr ----------

  predicate FoundAt(s: string, part: string, i: nat) {
    i + |part| <= |s| && s[i..i + |part|] == part
  }

  ghost predicate Contains(s: string, part: string) {
    exists i: nat :: FoundAt(s, part, i)
  }

  method Strstr(s: string, part: string) returns (found: bool)
    ensures found <==> Contains(s, part)
  {
    var i := 0;
    while i + |part| <= |s|
      invariant forall j: nat :: j < i ==> !FoundAt(s, part, j)
      decreases |s| - i
    {
      if s[i..i + |part|] == part {
        assert FoundAt(s, part, i);
        return true;
      }
      i := i + 1;
    }
    found := false;
  }
}
