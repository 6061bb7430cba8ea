/**
 Random identifiers (pkg/rand/id.go). The random source is the finite sequence of
 draws it goes on to return, so a rejection loop that outlives the draws reports it.
 */
module Ids {
  import Channels

  const ALPHABET_SIZE := 62

  /** The alphabet: lower-case letters, upper-case letters, digits. */
  function AlphabetChar(d: nat): char
    requires d < ALPHABET_SIZE
  {
    if d < 26 then 'a' + d as char
    else if d < 52 then 'A' + (d - 26) as char
    else '0' + (d - 52) as char
  }

  /** The first `count` six-bit groups of a draw that index the alphabet, low bits first. */
  function GroupChars(draw: nat, count: nat): string {
    if count == 0 then ""
    else
      var rest := GroupChars(draw / 64, count - 1);
      if draw % 64 < ALPHABET_SIZE then [AlphabetChar(draw % 64)] + rest else rest
  }

  /** Every character the draws yield: ten groups from each. */
  function DrawChars(draws: seq<nat>): string {
    if draws == [] then "" else GroupChars(draws[0], 10) + DrawChars(draws[1..])
  }

  lemma TakeFirst(taken: string, c: char, group: string, rest: string)
    ensures taken + (([c] + group) + rest) == (taken + [c]) + (group + rest)
  {
  }

  /** readIDChars. It fills the slice with the first characters the draws yield, and
      reports whether they sufficed. */
  method ReadIDChars(b: array<char>, draws: seq<nat>) returns (filled: bool)
    requires b.Length > 0
    modifies b
    ensures filled <==> |DrawChars(draws)| >= b.Length
    ensures filled ==> b[..] == DrawChars(draws)[..b.Length]
  {
    var n := 0;
    ghost var all := DrawChars(draws);
    for k := 0 to |draws|
      invariant 0 <= n < b.Length
      invariant all == b[..n] + DrawChars(draws[k..])
    {
      ghost var rest := DrawChars(draws[k + 1..]);
      var r: nat := draws[k];
      assert draws[k..][0] == r && draws[k..][1..] == draws[k + 1..];
      for i := 0 to 10
        invariant 0 <= n < b.Length
        invariant all == b[..n] + (GroupChars(r, 10 - i) + rest)
      {
        if r % 64 < ALPHABET_SIZE {
          var c := AlphabetChar(r % 64);
          TakeFirst(b[..n], c, GroupChars(r / 64, 9 - i), rest);
          b[n] := c;
          n := n + 1;
          assert b[..n] == b[..n - 1] + [c];
          if n == b.Length {
            assert b[..] == b[..n];
            return true;
          }
        }
        r := r / 64;
      }
      assert "" + rest == rest;
    }
    return false;
  }

  lemma {:induction false} GroupCharsAlphabet(draw: nat, count: nat)
    ensures Channels.AllChannelChars(GroupChars(draw, count))
  {
    if count > 0 {
      GroupCharsAlphabet(draw / 64, count - 1);
    }
  }

  lemma {:induction false} DrawCharsAlphabet(draws: seq<nat>)
    ensures Channels.AllChannelChars(DrawChars(draws))
  {
    if draws != [] {
      GroupCharsAlphabet(draws[0], 10);
      DrawCharsAlphabet(draws[1..]);
      assert DrawChars(draws) == GroupChars(draws[0], 10) + DrawChars(draws[1..]);
    }
  }

  /** formatID: the prefix and twelve random characters. */
  method FormatID(prefix: string, draws: seq<nat>) returns (id: string, filled: bool)
    ensures filled <==> |DrawChars(draws)| >= 12
    ensures filled ==> id == prefix + DrawChars(draws)[..12]
    ensures filled && Channels.AllChannelChars(prefix) ==> Channels.Escape(id) == id && '.' !in id
  {
    var b := new char[12](_ => '0');
    filled := ReadIDChars(b, draws);
    id := prefix + b[..];
    DrawCharsAlphabet(draws);
    if filled && Channels.AllChannelChars(prefix) {
      Channels.EscapeFixedPoint(id);
      Channels.EscapeHasNoDelimiter(id);
    }
  }

  /** A generated request ID survives the reply subject it is named in. */
  lemma RequestIDRoundTrip(service: string, clientId: string, draws: seq<nat>)
    requires |DrawChars(draws)| >= 12
    ensures var id := "REQ_" + DrawChars(draws)[..12];
      Channels.PerRequestID(Channels.ClientSubject(service, Channels.PerRequestClientID(clientId, id), "RES")) == id
  {
    var id := "REQ_" + DrawChars(draws)[..12];
    DrawCharsAlphabet(draws);
    Channels.PerRequestIDRoundTrip(service, clientId, id);
  }

  /** Every text of `n` letters of the alphabet is what some draw gives. */
  lemma {:induction false} EveryTextCanBeDrawn(text: seq<nat>) returns (draw: nat)
    requires forall k :: 0 <= k < |text| ==> text[k] < 62
    ensures |GroupChars(draw, |text|)| == |text|
    ensures forall k :: 0 <= k < |text| ==> GroupChars(draw, |text|)[k] == AlphabetChar(text[k])
  {
    if text == [] {
      draw := 0;
    } else {
      var rest := EveryTextCanBeDrawn(text[1..]);
      draw := rest * 64 + text[0];
      assert draw % 64 == text[0] && draw / 64 == rest;
    }
  }

  /** The alphabet is the letters and digits, each once. */
  lemma AlphabetIsAlphanumeric(c: char)
    ensures 'a' <= c <= 'z' || 'A' <= c <= 'Z' || '0' <= c <= '9' <==>
      exists d: nat :: d < ALPHABET_SIZE && AlphabetChar(d) == c
    ensures forall d: nat, e: nat :: d < e < ALPHABET_SIZE ==> AlphabetChar(d) != AlphabetChar(e)
  {
    if 'a' <= c <= 'z' {
      assert AlphabetChar((c - 'a') as nat) == c;
    } else if 'A' <= c <= 'Z' {
      assert AlphabetChar((c - 'A') as nat + 26) == c;
    } else if '0' <= c <= '9' {
      assert AlphabetChar((c - '0') as nat + 52) == c;
    }
  }
}
