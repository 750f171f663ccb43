/** The fixed data of the cube: the lattice spacing, the six sticker colours
    and the table that resolves every face token to an axis, a quarter-turn
    and a slice. */
module Constants {

  /** Distance between neighbouring cubie centres. */
  const CubieSize: int := 1

  /** Rotation axis of a move. */
  datatype Axis = X | Y | Z

  /** A 24-bit RGB colour. */
  type Color = nat

  /** Colour of the interior (non-outward) faces of a cubie. */
  const Blank: Color := 0x101010

  /** Sticker colour of each outer face, keyed by face letter. */
  const FaceColors: map<char, Color> := map[
    'U' := 0xffffff,  // white
    'D' := 0xffff00,  // yellow
    'L' := 0xff0000,  // red
    'R' := 0xffa500,  // orange
    'F' := 0x00ff00,  // green
    'B' := 0x0000ff   // blue
  ]

  /** One table entry. `angle` is the base turn in quarter-turns: +1 stands
      for PI/2 and -1 for -PI/2 radians. `slice` selects the layer along
      `axis`: -1 and 1 are the outer layers, 0 the middle one. */
  datatype MoveDefinition = MoveDefinition(face: char, axis: Axis, angle: int, slice: int)

  /** The move-definition table, one entry per face token. */
  const MoveDefinitions: map<char, MoveDefinition> := map[
    // single-layer turns
    'U' := MoveDefinition('U', Y, -1, 1),
    'D' := MoveDefinition('D', Y, 1, -1),
    'L' := MoveDefinition('L', X, 1, -1),
    'R' := MoveDefinition('R', X, -1, 1),
    'F' := MoveDefinition('F', Z, -1, 1),
    'B' := MoveDefinition('B', Z, 1, -1),
    // middle-slice moves
    'M' := MoveDefinition('M', X, 1, 0),
    'E' := MoveDefinition('E', Y, 1, 0),
    'S' := MoveDefinition('S', Z, -1, 0),
    // "wide" turns: each still names a single slice
    'u' := MoveDefinition('u', Y, -1, 1),
    'd' := MoveDefinition('d', Y, 1, -1),
    'l' := MoveDefinition('l', X, 1, -1),
    'r' := MoveDefinition('r', X, -1, 1),
    'f' := MoveDefinition('f', Z, -1, 1),
    'b' := MoveDefinition('b', Z, 1, -1),
    // "whole-cube" rotations: each still names a single slice
    'x' := MoveDefinition('x', X, -1, 1),
    'y' := MoveDefinition('y', Y, -1, 1),
    'z' := MoveDefinition('z', Z, -1, 1)
  ]

  /** The eighteen keys of the table. */
  const TableKeys: set<char> :=
    {'U', 'D', 'L', 'R', 'F', 'B', 'M', 'E', 'S',
     'u', 'd', 'l', 'r', 'f', 'b', 'x', 'y', 'z'}

  /** The keys that are not lower-case letters. */
  const UpperKeys: set<char> := {'U', 'D', 'L', 'R', 'F', 'B', 'M', 'E', 'S'}

  predicate IsLowerAscii(c: char) {
    'a' <= c <= 'z'
  }

  /** Every entry is well formed: its `face` is its own key, its slice is a
      layer of the 3x3x3 lattice, and its angle is a non-zero quarter turn. */
  lemma EntriesWellFormed()
    ensures forall k :: k in MoveDefinitions ==> MoveDefinitions[k].face == k
    ensures forall k :: k in MoveDefinitions ==> MoveDefinitions[k].slice in {-1, 0, 1}
    ensures forall k :: k in MoveDefinitions ==> MoveDefinitions[k].angle in {-1, 1}
  {
  }

  /** The table's keys are exactly the eighteen tokens of `TableKeys`. */
  lemma TableKeysExact()
    ensures MoveDefinitions.Keys == TableKeys
  {
  }

  /** The keys that are not lower-case letters are exactly `UpperKeys`. */
  lemma UpperKeysAreNonLowerKeys()
    ensures forall k :: k in MoveDefinitions && !IsLowerAscii(k) <==> k in UpperKeys
  {
  }

  /** The table has exactly eighteen entries. */
  lemma TableHasEighteenKeys()
    ensures |MoveDefinitions| == 18
  {
    TableKeysExact();
    KeysInCodeOrder();
    IncreasingCard(SortedKeys);
    ToSetMembers(SortedKeys);
    SortedKeysAreTableKeys();
  }

  /** The eighteen keys, in increasing character order. */
  const SortedKeys: string := "BDEFLMRSUbdflruxyz"

  function ToSet(s: seq<char>): set<char> {
    if s == [] then {} else {s[0]} + ToSet(s[1..])
  }

  predicate Increasing(s: seq<char>) {
    forall i :: 0 < i < |s| ==> s[i - 1] < s[i]
  }

  lemma KeysInCodeOrder()
    ensures Increasing(SortedKeys)
  {
  }

  lemma SortedKeysAreTableKeys()
    requires forall c :: c in ToSet(SortedKeys) <==> c in SortedKeys
    ensures ToSet(SortedKeys) == TableKeys
  {
  }

  /** `ToSet` collects exactly the characters of the string. */
  lemma {:induction false} ToSetMembers(s: seq<char>)
    ensures forall c :: c in ToSet(s) <==> c in s
  {
    if s != [] {
      ToSetMembers(s[1..]);
      assert forall c :: c in s <==> c == s[0] || c in s[1..];
    }
  }

  /** The first character of a strictly increasing string is below all others. */
  lemma {:induction false} IncreasingFirst(s: seq<char>)
    requires Increasing(s)
    ensures forall i :: 0 < i < |s| ==> s[0] < s[i]
  {
    if |s| > 1 {
      IncreasingFirst(s[1..]);
      assert forall i :: 1 < i < |s| ==> s[1] < s[i] by {
        forall i | 1 < i < |s| ensures s[1] < s[i] {
          assert s[1..][i - 1] == s[i];
        }
      }
    }
  }

  /** A strictly increasing string has as many distinct characters as it is long. */
  lemma {:induction false} IncreasingCard(s: seq<char>)
    requires Increasing(s)
    ensures |ToSet(s)| == |s|
  {
    if s != [] {
      var rest := s[1..];
      assert Increasing(rest);
      IncreasingCard(rest);
      IncreasingFirst(s);
      ToSetMembers(rest);
      assert s[0] !in ToSet(rest);
    }
  }

  /** Opposite faces turn about the same axis, name opposite outer slices and
      carry opposite base angles. */
  lemma OppositeFacesMirror()
    ensures forall p :: p in {('U', 'D'), ('L', 'R'), ('F', 'B')} ==>
      && MoveDefinitions[p.0].axis == MoveDefinitions[p.1].axis
      && MoveDefinitions[p.0].slice == -MoveDefinitions[p.1].slice != 0
      && MoveDefinitions[p.0].angle == -MoveDefinitions[p.1].angle
  {
  }

  /** M, E and S are the middle-slice moves about x, y and z. */
  lemma MiddleSliceMoves()
    ensures MoveDefinitions['M'].axis == X && MoveDefinitions['M'].slice == 0
    ensures MoveDefinitions['E'].axis == Y && MoveDefinitions['E'].slice == 0
    ensures MoveDefinitions['S'].axis == Z && MoveDefinitions['S'].slice == 0
    ensures forall k :: k in MoveDefinitions && MoveDefinitions[k].slice == 0 ==> k in {'M', 'E', 'S'}
  {
  }

  /** Each lower-case "wide" entry turns exactly the same single slice, about
      the same axis and by the same angle, as its upper-case face. */
  lemma WideEntriesEqualSingleLayer()
    ensures forall p :: p in {('u', 'U'), ('d', 'D'), ('l', 'L'), ('r', 'R'), ('f', 'F'), ('b', 'B')} ==>
      && MoveDefinitions[p.0].axis == MoveDefinitions[p.1].axis
      && MoveDefinitions[p.0].angle == MoveDefinitions[p.1].angle
      && MoveDefinitions[p.0].slice == MoveDefinitions[p.1].slice
  {
  }

  /** Each "whole-cube rotation" entry x, y, z turns exactly the single slice,
      about the same axis and by the same angle, of R, U and F respectively. */
  lemma RotationEntriesEqualFaceTurns()
    ensures forall p :: p in {('x', 'R'), ('y', 'U'), ('z', 'F')} ==>
      && MoveDefinitions[p.0].axis == MoveDefinitions[p.1].axis
      && MoveDefinitions[p.0].angle == MoveDefinitions[p.1].angle
      && MoveDefinitions[p.0].slice == MoveDefinitions[p.1].slice
  {
  }

  /** The six sticker colours are pairwise distinct and none is the interior
      colour. */
  lemma FaceColorsDistinct()
    ensures FaceColors.Keys == {'U', 'D', 'L', 'R', 'F', 'B'}
    ensures forall a, b :: a in FaceColors && b in FaceColors && a != b ==> FaceColors[a] != FaceColors[b]
    ensures forall a :: a in FaceColors ==> FaceColors[a] != Blank
  {
  }
}
