/**
 The tetrimino shape catalog: seven piece kinds, each with a fixed table of
 rotation states (4x4 frames whose blocks carry the kind's colour tag) and a
 spawn position. Rotation is meant to step through the stored states rather
 than to turn a matrix (no code here does the stepping), so the lemmas below
 establish what such stepping would rely on: every state is a 4x4 frame with
 four blocks of the kind's colour, the spawn index is valid, the states are
 distinct, and each state is the clockwise quarter turn of the one before
 it, up to a translation inside the frame.
 */
module Tetriminos {
  import opened Frames

  /** The seven piece kinds, one per generator type. */
  datatype Kind = I | L | J | O | S | Z | T

  datatype Option<V> = None | Some(value: V)

  /**
   A piece: its rotation states, the signed position of its frame's top-left
   cell, and the index of the state it currently shows.
   */
  datatype Tetrimino = Tetrimino(states: seq<Frame>, x: int, y: int, currentState: int)

  /** The spawn position every generator uses. */
  const SpawnX := 4
  const SpawnY := 0

  // ---------------------------------------------------------------------------
  // Colour tags

  /** The colour tag a kind's blocks carry; 0 is reserved for "no block". */
  function Tag(k: Kind): (t: int)
    ensures 1 <= t <= 7
  {
    match k
    case I => 1
    case L => 2
    case J => 3
    case O => 4
    case S => 5
    case Z => 6
    case T => 7
  }

  /** The kind whose blocks carry the value `v`, if any. */
  function KindOfTag(v: int): (r: Option<Kind>)
    ensures r.Some? <==> 1 <= v <= 7
    ensures r.Some? ==> Tag(r.value) == v
  {
    if v == 1 then Some(I)
    else if v == 2 then Some(L)
    else if v == 3 then Some(J)
    else if v == 4 then Some(O)
    else if v == 5 then Some(S)
    else if v == 6 then Some(Z)
    else if v == 7 then Some(T)
    else None
  }

  // ---------------------------------------------------------------------------
  // State tables

  /** A non-empty table of rotation states, each a 4x4 frame with four blocks of colour `tag`. */
  ghost predicate Table(states: seq<Frame>, tag: int) {
    |states| > 0 && forall i :: 0 <= i < |states| ==> FourBlocks(states[i], tag)
  }

  /** The rotation states built by the I generator. */
  function IStates(): (r: seq<Frame>)
    ensures |r| == 2
    ensures forall i :: 0 <= i < |r| ==> IsFrame(r[i]) && Blocks(r[i]) == 4
    ensures forall i :: 0 <= i < |r| ==> Coloured(r[i], 1)
  {
    [ [[1, 1, 1, 1],
       [0, 0, 0, 0],
       [0, 0, 0, 0],
       [0, 0, 0, 0]],
      [[1, 0, 0, 0],
       [1, 0, 0, 0],
       [1, 0, 0, 0],
       [1, 0, 0, 0]] ]
  }

  /** The rotation states built by the L generator. */
  function LStates(): (r: seq<Frame>)
    ensures |r| == 4
    ensures forall i :: 0 <= i < |r| ==> IsFrame(r[i]) && Blocks(r[i]) == 4
    ensures forall i :: 0 <= i < |r| ==> Coloured(r[i], 2)
  {
    [ [[2, 2, 2, 0],
       [2, 0, 0, 0],
       [0, 0, 0, 0],
       [0, 0, 0, 0]],
      [[2, 2, 0, 0],
       [0, 2, 0, 0],
       [0, 2, 0, 0],
       [0, 0, 0, 0]],
      [[0, 0, 2, 0],
       [2, 2, 2, 0],
       [0, 0, 0, 0],
       [0, 0, 0, 0]],
      [[2, 0, 0, 0],
       [2, 0, 0, 0],
       [2, 2, 0, 0],
       [0, 0, 0, 0]] ]
  }

  /** The rotation states built by the J generator. */
  function JStates(): (r: seq<Frame>)
    ensures |r| == 4
    ensures forall i :: 0 <= i < |r| ==> IsFrame(r[i]) && Blocks(r[i]) == 4
    ensures forall i :: 0 <= i < |r| ==> Coloured(r[i], 3)
  {
    [ [[3, 3, 3, 0],
       [0, 0, 3, 0],
       [0, 0, 0, 0],
       [0, 0, 0, 0]],
      [[0, 3, 0, 0],
       [0, 3, 0, 0],
       [3, 3, 0, 0],
       [0, 0, 0, 0]],
      [[3, 0, 0, 0],
       [3, 3, 3, 0],
       [0, 0, 0, 0],
       [0, 0, 0, 0]],
      [[3, 3, 0, 0],
       [3, 0, 0, 0],
       [3, 0, 0, 0],
       [0, 0, 0, 0]] ]
  }

  /** The rotation states built by the O generator. */
  function OStates(): (r: seq<Frame>)
    ensures |r| == 1
    ensures forall i :: 0 <= i < |r| ==> IsFrame(r[i]) && Blocks(r[i]) == 4
    ensures forall i :: 0 <= i < |r| ==> Coloured(r[i], 4)
  {
    [ [[4, 4, 0, 0],
       [4, 4, 0, 0],
       [0, 0, 0, 0],
       [0, 0, 0, 0]] ]
  }

  /** The rotation states built by the S generator. */
  function SStates(): (r: seq<Frame>)
    ensures |r| == 2
    ensures forall i :: 0 <= i < |r| ==> IsFrame(r[i]) && Blocks(r[i]) == 4
    ensures forall i :: 0 <= i < |r| ==> Coloured(r[i], 5)
  {
    [ [[0, 5, 5, 0],
       [5, 5, 0, 0],
       [0, 0, 0, 0],
       [0, 0, 0, 0]],
      [[0, 5, 0, 0],
       [0, 5, 5, 0],
       [0, 0, 5, 0],
       [0, 0, 0, 0]] ]
  }

  /** The rotation states built by the Z generator. */
  function ZStates(): (r: seq<Frame>)
    ensures |r| == 2
    ensures forall i :: 0 <= i < |r| ==> IsFrame(r[i]) && Blocks(r[i]) == 4
    ensures forall i :: 0 <= i < |r| ==> Coloured(r[i], 6)
  {
    [ [[6, 6, 0, 0],
       [0, 6, 6, 0],
       [0, 0, 0, 0],
       [0, 0, 0, 0]],
      [[0, 0, 6, 0],
       [0, 6, 6, 0],
       [0, 6, 0, 0],
       [0, 0, 0, 0]] ]
  }

  /** The rotation states built by the T generator. */
  function TStates(): (r: seq<Frame>)
    ensures |r| == 4
    ensures forall i :: 0 <= i < |r| ==> IsFrame(r[i]) && Blocks(r[i]) == 4
    ensures forall i :: 0 <= i < |r| ==> Coloured(r[i], 7)
  {
    [ [[7, 7, 7, 0],
       [0, 7, 0, 0],
       [0, 0, 0, 0],
       [0, 0, 0, 0]],
      [[0, 7, 0, 0],
       [7, 7, 0, 0],
       [0, 7, 0, 0],
       [0, 0, 0, 0]],
      [[0, 7, 0, 0],
       [7, 7, 7, 0],
       [0, 0, 0, 0],
       [0, 0, 0, 0]],
      [[0, 7, 0, 0],
       [0, 7, 7, 0],
       [0, 7, 0, 0],
       [0, 0, 0, 0]] ]
  }

  /** The rotation states of kind `k`, in the order its generator lists them. */
  function States(k: Kind): (r: seq<Frame>)
    ensures Table(r, Tag(k))
    ensures |r| == (if k == O then 1 else if k == I || k == S || k == Z then 2 else 4)
  {
    match k
    case I => IStates()
    case L => LStates()
    case J => JStates()
    case O => OStates()
    case S => SStates()
    case Z => ZStates()
    case T => TStates()
  }

  // ---------------------------------------------------------------------------
  // Pieces

  /** A piece whose state index is valid and whose states are 4x4 frames. */
  ghost predicate Valid(p: Tetrimino) {
    && 0 <= p.currentState < |p.states|
    && forall i :: 0 <= i < |p.states| ==> IsFrame(p.states[i])
  }

  /** A fresh piece of kind `k`, as its generator builds it. */
  function New(k: Kind): (p: Tetrimino)
    ensures p.states == States(k)
    ensures p.x == SpawnX && p.y == SpawnY && p.currentState == 0
    ensures Valid(p) && FourBlocks(p.states[p.currentState], Tag(k))
  {
    Tetrimino(States(k), SpawnX, SpawnY, 0)
  }

  // ---------------------------------------------------------------------------
  // Rotation order

  /**
   The stepping order the rotation comment describes: the index after `i`
   among `n` states, wrapping past the last back to 0. The source has no
   code that advances the index; this order is what the cycle lemmas below
   are stated against.
   */
  function Next(i: nat, n: nat): (j: nat)
    requires i < n
    ensures j < n
    ensures j == (i + 1) % n
  {
    if i + 1 == n then 0 else i + 1
  }

  /** Each state is the clockwise quarter turn of the previous one, the first following the last. */
  ghost predicate RotationCycle(states: seq<Frame>)
    requires forall i :: 0 <= i < |states| ==> IsFrame(states[i])
  {
    forall i :: 0 <= i < |states| ==> SameShape(Rotate(states[i]), states[Next(i, |states|)])
  }

  /** Each I state is the clockwise quarter turn of the one before it, moved inside the frame. */
  lemma IRotations()
    ensures RotationCycle(IStates())
  {
    var s := IStates();
    forall i | 0 <= i < 2
      ensures SameShape(Rotate(s[i]), s[Next(i, 2)])
    {
      if i == 0 { TurnsInto(s[0], s[1], 0, -3); }
      else { TurnsInto(s[1], s[0], 0, 0); }
    }
  }

  /** Each L state is the clockwise quarter turn of the one before it, moved inside the frame. */
  lemma LRotations()
    ensures RotationCycle(LStates())
  {
    var s := LStates();
    forall i | 0 <= i < 4
      ensures SameShape(Rotate(s[i]), s[Next(i, 4)])
    {
      if i == 0 { TurnsInto(s[0], s[1], 0, -2); }
      else if i == 1 { TurnsInto(s[1], s[2], 0, -1); }
      else if i == 2 { TurnsInto(s[2], s[3], 0, -2); }
      else { TurnsInto(s[3], s[0], 0, -1); }
    }
  }

  /** Each J state is the clockwise quarter turn of the one before it, moved inside the frame. */
  lemma JRotations()
    ensures RotationCycle(JStates())
  {
    var s := JStates();
    forall i | 0 <= i < 4
      ensures SameShape(Rotate(s[i]), s[Next(i, 4)])
    {
      if i == 0 { TurnsInto(s[0], s[1], 0, -2); }
      else if i == 1 { TurnsInto(s[1], s[2], 0, -1); }
      else if i == 2 { TurnsInto(s[2], s[3], 0, -2); }
      else { TurnsInto(s[3], s[0], 0, -1); }
    }
  }

  /** The single O state, turned a quarter, is itself moved inside the frame. */
  lemma ORotations()
    ensures RotationCycle(OStates())
  {
    var s := OStates();
    TurnsInto(s[0], s[0], 0, -2);
  }

  /** Each S state is the clockwise quarter turn of the one before it, moved inside the frame. */
  lemma SRotations()
    ensures RotationCycle(SStates())
  {
    var s := SStates();
    forall i | 0 <= i < 2
      ensures SameShape(Rotate(s[i]), s[Next(i, 2)])
    {
      if i == 0 { TurnsInto(s[0], s[1], 0, -1); }
      else { TurnsInto(s[1], s[0], -1, -1); }
    }
  }

  /** Each Z state is the clockwise quarter turn of the one before it, moved inside the frame. */
  lemma ZRotations()
    ensures RotationCycle(ZStates())
  {
    var s := ZStates();
    forall i | 0 <= i < 2
      ensures SameShape(Rotate(s[i]), s[Next(i, 2)])
    {
      if i == 0 { TurnsInto(s[0], s[1], 0, -1); }
      else { TurnsInto(s[1], s[0], -1, -1); }
    }
  }

  /** Each T state is the clockwise quarter turn of the one before it, moved inside the frame. */
  lemma TRotations()
    ensures RotationCycle(TStates())
  {
    var s := TStates();
    forall i | 0 <= i < 4
      ensures SameShape(Rotate(s[i]), s[Next(i, 4)])
    {
      if i == 0 { TurnsInto(s[0], s[1], 0, -2); }
      else if i == 1 { TurnsInto(s[1], s[2], 0, -1); }
      else if i == 2 { TurnsInto(s[2], s[3], 0, -1); }
      else { TurnsInto(s[3], s[0], -1, -1); }
    }
  }

  // ---------------------------------------------------------------------------
  // Distinct states

  /** No I state is listed twice. */
  lemma IDistinct(i: int, j: int)
    requires 0 <= i < j < 2
    ensures IStates()[i] != IStates()[j]
  {
    var s := IStates();
    assert s[0][0][1] != s[1][0][1];
  }

  /** No L state is listed twice. */
  lemma LDistinct(i: int, j: int)
    requires 0 <= i < j < 4
    ensures LStates()[i] != LStates()[j]
  {
    var s := LStates();
    if i == 0 && j == 1 { assert s[0][0][2] != s[1][0][2]; }
    else if i == 0 && j == 2 { assert s[0][0][0] != s[2][0][0]; }
    else if i == 0 && j == 3 { assert s[0][0][1] != s[3][0][1]; }
    else if i == 1 && j == 2 { assert s[1][0][0] != s[2][0][0]; }
    else if i == 1 && j == 3 { assert s[1][0][1] != s[3][0][1]; }
    else { assert s[2][0][0] != s[3][0][0]; }
  }

  /** No J state is listed twice. */
  lemma JDistinct(i: int, j: int)
    requires 0 <= i < j < 4
    ensures JStates()[i] != JStates()[j]
  {
    var s := JStates();
    if i == 0 && j == 1 { assert s[0][0][0] != s[1][0][0]; }
    else if i == 0 && j == 2 { assert s[0][0][1] != s[2][0][1]; }
    else if i == 0 && j == 3 { assert s[0][0][2] != s[3][0][2]; }
    else if i == 1 && j == 2 { assert s[1][0][0] != s[2][0][0]; }
    else if i == 1 && j == 3 { assert s[1][0][0] != s[3][0][0]; }
    else { assert s[2][0][1] != s[3][0][1]; }
  }

  /** No S state is listed twice. */
  lemma SDistinct(i: int, j: int)
    requires 0 <= i < j < 2
    ensures SStates()[i] != SStates()[j]
  {
    var s := SStates();
    assert s[0][0][2] != s[1][0][2];
  }

  /** No Z state is listed twice. */
  lemma ZDistinct(i: int, j: int)
    requires 0 <= i < j < 2
    ensures ZStates()[i] != ZStates()[j]
  {
    var s := ZStates();
    assert s[0][0][0] != s[1][0][0];
  }

  /** No T state is listed twice. */
  lemma TDistinct(i: int, j: int)
    requires 0 <= i < j < 4
    ensures TStates()[i] != TStates()[j]
  {
    var s := TStates();
    if i == 0 && j == 1 { assert s[0][0][0] != s[1][0][0]; }
    else if i == 0 && j == 2 { assert s[0][0][0] != s[2][0][0]; }
    else if i == 0 && j == 3 { assert s[0][0][0] != s[3][0][0]; }
    else if i == 1 && j == 2 { assert s[1][1][2] != s[2][1][2]; }
    else if i == 1 && j == 3 { assert s[1][1][0] != s[3][1][0]; }
    else { assert s[2][1][0] != s[3][1][0]; }
  }

  /** Within each kind, no rotation state is listed twice. */
  lemma StatesDistinct(k: Kind, i: int, j: int)
    requires 0 <= i < j < |States(k)|
    ensures States(k)[i] != States(k)[j]
  {
    match k
    case I => IDistinct(i, j);
    case L => LDistinct(i, j);
    case J => JDistinct(i, j);
    case O =>
    case S => SDistinct(i, j);
    case Z => ZDistinct(i, j);
    case T => TDistinct(i, j);
  }

  /**
   Stepping from any state of any kind to the next one (wrapping past the
   last) turns the piece a quarter clockwise, up to a move inside the frame.
   */
  lemma StatesFollowRotation(k: Kind, i: int)
    requires 0 <= i < |States(k)|
    ensures SameShape(Rotate(States(k)[i]), States(k)[Next(i, |States(k)|)])
  {
    match k
    case I => IRotations();
    case L => LRotations();
    case J => JRotations();
    case O => ORotations();
    case S => SRotations();
    case Z => ZRotations();
    case T => TRotations();
  }

  // ---------------------------------------------------------------------------
  // Tags identify kinds

  /** Distinct kinds carry distinct tags, and KindOfTag recovers a kind from its tag. */
  lemma TagsIdentifyKinds(a: Kind, b: Kind)
    ensures Tag(a) == Tag(b) <==> a == b
    ensures KindOfTag(Tag(a)) == Some(a)
  {
  }

  /** Every block stored in a kind's states names that kind. */
  lemma CellIdentifiesKind(k: Kind, i: int, row: int, col: int)
    requires 0 <= i < |States(k)| && 0 <= row < Size && 0 <= col < Size
    requires States(k)[i][row][col] != 0
    ensures KindOfTag(States(k)[i][row][col]) == Some(k)
  {
    TagsIdentifyKinds(k, k);
  }
}
