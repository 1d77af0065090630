/** The acceptance rule of a speculative round. */
module Verification {
  import opened Common

  /** How many proposals the target agrees with, from the left. */
  function AcceptPrefix(proposals: seq<nat>, chosen: seq<nat>): (k: nat)
    requires |chosen| == |proposals| + 1
    ensures k <= |proposals| && proposals[..k] == chosen[..k]
    ensures k < |proposals| ==> proposals[k] != chosen[k]
  {
    if proposals == [] || proposals[0] != chosen[0] then 0
    else
      var k := AcceptPrefix(proposals[1..], chosen[1..]);
      assert proposals[..k + 1] == [proposals[0]] + proposals[1..][..k];
      assert chosen[..k + 1] == [chosen[0]] + chosen[1..][..k];
      k + 1
  }

  /** `accept_prefix` as called, with its length check: the answer is the only length at which the two
      agree so far and not one further. */
  function CheckedAccept(proposals: seq<nat>, chosen: seq<nat>): (r: Result<nat>)
    ensures r.Err? <==> |chosen| != |proposals| + 1
    ensures r.Err? ==> r.error == ValueError
    ensures r.Ok? ==> forall k: nat :: k == r.value <==>
      && k <= |proposals| && proposals[..k] == chosen[..k] && (k < |proposals| ==> proposals[k] != chosen[k])
  {
    if |chosen| != |proposals| + 1 then Err(ValueError)
    else
      AcceptUnique(proposals, chosen);
      Ok(AcceptPrefix(proposals, chosen))
  }

  lemma AgreesBelow(a: seq<nat>, b: seq<nat>, n: nat)
    requires n <= |a| && n <= |b| && a[..n] == b[..n]
    ensures forall i :: 0 <= i < n ==> a[i] == b[i]
  {
    assert forall i :: 0 <= i < n ==> a[i] == a[..n][i];
  }

  lemma AcceptUnique(proposals: seq<nat>, chosen: seq<nat>)
    requires |chosen| == |proposals| + 1
    ensures forall k: nat :: k <= |proposals| && proposals[..k] == chosen[..k] && (k < |proposals| ==> proposals[k] != chosen[k]) ==>
      k == AcceptPrefix(proposals, chosen)
  {
    var n := AcceptPrefix(proposals, chosen);
    forall k: nat | k <= |proposals| && proposals[..k] == chosen[..k] && (k < |proposals| ==> proposals[k] != chosen[k])
      ensures k == n
    {
      AgreesBelow(proposals, chosen, n);
      AgreesBelow(proposals, chosen, k);
    }
  }

  /** The tokens a round produces: exactly the agreeing prefix, up to the first disagreement, and the
      target's next token. */
  function AcceptedTokens(proposals: seq<nat>, chosen: seq<nat>): (r: seq<nat>)
    requires |chosen| == |proposals| + 1
    ensures 1 <= |r| <= |proposals| + 1 && r == chosen[..|r|]
    ensures r[..|r| - 1] == proposals[..|r| - 1] && (|r| <= |proposals| ==> proposals[|r| - 1] != chosen[|r| - 1])
  {
    var k := AcceptPrefix(proposals, chosen);
    proposals[..k] + [chosen[k]]
  }

  /** Index of the first stop token, or the length. */
  function FirstStop(s: seq<nat>, stops: set<nat>): (i: nat)
    ensures i <= |s| && (i < |s| ==> s[i] in stops)
    ensures forall j :: 0 <= j < i ==> s[j] !in stops
  {
    if s == [] || s[0] in stops then 0
    else
      var i := FirstStop(s[1..], stops);
      assert forall j :: 0 < j < i + 1 ==> s[j] == s[1..][j - 1];
      i + 1
  }

  /** How many of the round's tokens are kept: cut at the token limit and after a stop token. */
  function Kept(news: seq<nat>, room: nat, stops: set<nat>): (keep: nat)
    ensures keep <= |news| && keep <= room && (|news| > 0 && room > 0 ==> keep > 0)
    ensures forall j :: 0 <= j < keep - 1 ==> news[j] !in stops
    ensures keep == |news| || keep == room || (keep > 0 && news[keep - 1] in stops)
  {
    var cut := if |news| < room then |news| else room;
    var stop := FirstStop(news[..cut], stops);
    if stop < cut then stop + 1 else cut
  }
}
