/**
 * The share-string form `<sceneDescId>;<saveState>` that the viewer keeps in
 * the URL hash and in the share box, and its decoding.
 */
module HashString {

  /** `s.indexOf(c)` for a one-character needle: the first position of `c`, or -1. */
  function IndexOf(s: string, c: char): (r: int)
    ensures -1 <= r < |s|
    ensures r >= 0 ==> s[r] == c && c !in s[..r]
    ensures r == -1 <==> c !in s
  {
    if s == [] then -1
    else if s[0] == c then 0
    else
      var k := IndexOf(s[1..], c);
      assert s[1..][..if k < 0 then 0 else k] == s[1..1 + if k < 0 then 0 else k];
      if k < 0 then -1 else k + 1
  }

  /**
   * Splits a hash string at its first `;` into the scene id and the save
   * state; without a `;` the whole string is the id and the state is empty.
   */
  function DecodeHashString(hashString: string): (string, string)
  {
    var firstSemicolon := IndexOf(hashString, ';');
    if firstSemicolon >= 0 then
      (hashString[..firstSemicolon], hashString[firstSemicolon + 1..])
    else
      (hashString, "")
  }

  /** The share string composed after every save: the scene id, `;`, the save state. */
  function ShareString(sceneDescId: string, sceneStateStr: string): string
  {
    sceneDescId + ";" + sceneStateStr
  }

  /**
   * The location hash as the viewer reads it: a leading `#` is stripped and the
   * rest decoded; a hash without `#` gives two empty strings.
   */
  function DecodeHash(hash: string): (r: (string, string))
    ensures |hash| == 0 || hash[0] != '#' ==> r == ("", "")
  {
    if |hash| > 0 && hash[0] == '#' then DecodeHashString(hash[1..]) else ("", "")
  }

  // ---------------------------------------------------------------------
  // Properties
  // ---------------------------------------------------------------------

  /**
   * The split is at the FIRST `;`: the id never contains one, and when the
   * text has a `;` it is exactly id + ";" + state, so later `;` stay in the state.
   */
  lemma DecodeSplitsAtFirstSemicolon(hashString: string)
    ensures ';' !in DecodeHashString(hashString).0
    ensures ';' in hashString ==>
      hashString == ShareString(DecodeHashString(hashString).0, DecodeHashString(hashString).1)
    ensures ';' !in hashString ==> DecodeHashString(hashString) == (hashString, "")
  {
    var k := IndexOf(hashString, ';');
    if k >= 0 {
      assert hashString == hashString[..k] + [';'] + hashString[k + 1..];
    }
  }

  /** `indexOf` on `prefix + [c] + rest` finds the separator when the prefix lacks it. */
  lemma {:induction false} IndexOfAfterPrefix(prefix: string, c: char, rest: string)
    requires c !in prefix
    ensures IndexOf(prefix + [c] + rest, c) == |prefix|
  {
    var s := prefix + [c] + rest;
    if prefix != [] {
      assert s[1..] == prefix[1..] + [c] + rest;
      IndexOfAfterPrefix(prefix[1..], c, rest);
    }
  }

  /** Decoding a composed share string gives back its id and state whenever the id has no `;`. */
  lemma {:induction false} ShareStringRoundTrip(sceneDescId: string, sceneStateStr: string)
    requires ';' !in sceneDescId
    ensures DecodeHashString(ShareString(sceneDescId, sceneStateStr)) == (sceneDescId, sceneStateStr)
  {
    var s := ShareString(sceneDescId, sceneStateStr);
    IndexOfAfterPrefix(sceneDescId, ';', sceneStateStr);
    assert s[..|sceneDescId|] == sceneDescId;
    assert s[|sceneDescId| + 1..] == sceneStateStr;
  }

  /** An id containing `;` does not survive the round trip: the split happens inside it. */
  lemma ShareStringSplitsInsideId(sceneDescId: string, sceneStateStr: string)
    requires ';' in sceneDescId
    ensures DecodeHashString(ShareString(sceneDescId, sceneStateStr)).0 != sceneDescId
  {
    DecodeSplitsAtFirstSemicolon(ShareString(sceneDescId, sceneStateStr));
  }
}
