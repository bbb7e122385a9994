/** The structural part of `validateToken`: a token is considered further
    only when it is non-empty and splits into exactly three '.'-separated
    parts (header, payload, signature). Decoding the payload and checking its
    expiry and claims are not part of this model. */
module Token {
  import Text

  /** The three parts of a well-shaped token. */
  datatype Parts = Parts(header: string, payload: string, signature: string)

  /** Whether `validateToken` gets past its two structural checks. */
  predicate WellShaped(token: string)
  {
    token != "" && |Text.Split(token, '.')| == 3
  }

  /** The parts of a well-shaped token. */
  function PartsOf(token: string): Parts
    requires WellShaped(token)
  {
    var ps := Text.Split(token, '.');
    Parts(ps[0], ps[1], ps[2])
  }

  /** A token passes the structural checks exactly when it is non-empty and
      holds exactly two dots. */
  lemma ShapeIsTwoDots(token: string)
    ensures WellShaped(token) <==> token != "" && Text.Count(token, '.') == 2
  {
    Text.SplitLength(token, '.');
  }

  /** The parts of a well-shaped token hold no dot and put back together with
      dots give the token again. */
  lemma PartsRebuildToken(token: string)
    requires WellShaped(token)
    ensures var p := PartsOf(token);
      && '.' !in p.header && '.' !in p.payload && '.' !in p.signature
      && p.header + "." + p.payload + "." + p.signature == token
  {
    var ps := Text.Split(token, '.');
    Text.SplitPiecesFree(token, '.');
    Text.JoinSplit(token, '.');
    assert ps[1..][1..] == [ps[2]];
    assert Text.Join(ps[1..][1..], '.') == ps[2];
    assert Text.Join(ps[1..], '.') == ps[1] + ['.'] + ps[2];
    assert Text.Join(ps, '.') == ps[0] + ['.'] + (ps[1] + ['.'] + ps[2]);
  }

  /** Rejected tokens: the empty token, and any token with fewer or more than two dots. */
  lemma RejectedShapes(token: string)
    ensures !WellShaped("")
    ensures Text.Count(token, '.') != 2 ==> !WellShaped(token)
  {
    ShapeIsTwoDots(token);
  }
}
