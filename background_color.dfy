/** The avatar background colour: a name is hashed, character by
    character, into one of ten colour classes. JavaScript numbers are
    modelled as integers, which they are exactly while below 2^53; the
    shift converts its operand to a signed 32-bit integer and wraps its
    result. */
module BackgroundColor {
  import opened Common

  /** A UTF-16 code unit, what `charCodeAt` returns. */
  newtype CodeUnit = x: int | 0 <= x < 0x1_0000

  /** The ten classes, in the order of the list. */
  const Classes: seq<string> := ["bg-blue-500", "bg-orange-500", "bg-green-500", "bg-red-500", "bg-purple-500",
                                 "bg-pink-500", "bg-gray-500", "bg-yellow-500", "bg-teal-500", "bg-cyan-500"]

  /** ECMAScript's ToInt32: the integer modulo 2^32, read as two's
      complement. */
  function ToInt32(x: int): (r: int)
    ensures -0x8000_0000 <= r < 0x8000_0000
    ensures (r - x) % 0x1_0000_0000 == 0
  {
    var m := x % 0x1_0000_0000;
    if m >= 0x8000_0000 then m - 0x1_0000_0000 else m
  }

  /** `hash << 5`. */
  function ShiftLeft5(hash: int): int
  {
    ToInt32(ToInt32(hash) * 32)
  }

  /** The hash after folding every code unit, from the first. */
  function Hash(name: seq<CodeUnit>): int
  {
    if name == [] then 0
    else
      var hash := Hash(name[..|name| - 1]);
      name[|name| - 1] as int + (ShiftLeft5(hash) - hash)
  }

  function Abs(x: int): nat
  {
    if x < 0 then -x else x
  }

  /** The class for a name: blue for a null or empty name, otherwise the
      class at the hash's magnitude modulo ten. */
  function ColorClass(displayName: Option<seq<CodeUnit>>): (r: string)
    ensures r in Classes
    ensures displayName.None? || displayName.value == [] ==> r == "bg-blue-500"
  {
    if displayName.None? || displayName.value == [] then "bg-blue-500"
    else Classes[Abs(Hash(displayName.value)) % |Classes|]
  }

  /** ToInt32 leaves a signed 32-bit integer as it is, so the shift of a
      small hash is multiplication by 32. */
  lemma ToInt32Small(x: int)
    requires -0x8000_0000 <= x < 0x8000_0000
    ensures ToInt32(x) == x
  {
    if x < 0 {
      assert x % 0x1_0000_0000 == x + 0x1_0000_0000;
    }
  }

  /** A one-character name hashes to its code unit, so it picks the class
      at the code unit modulo ten. */
  lemma OneCharacter(a: CodeUnit)
    ensures Hash([a]) == a as int
    ensures ColorClass(Some([a])) == Classes[a as int % 10]
  {
    assert [a][..0] == [];
    ToInt32Small(0);
    assert ShiftLeft5(0) == 0;
    assert Hash([a]) == a as int + (ShiftLeft5(0) - 0);
  }

  /** A two-character name folds the first as 31 times it plus the
      second. */
  lemma TwoCharacters(a: CodeUnit, b: CodeUnit)
    ensures Hash([a, b]) == 31 * a as int + b as int
  {
    OneCharacter(a);
    assert [a, b][..1] == [a];
    ToInt32Small(a as int);
    ToInt32Small(a as int * 32);
    assert ShiftLeft5(a as int) == 32 * a as int;
  }

  /** `getBackgroundColorClass`. */
  method GetBackgroundColorClass(displayName: Option<seq<CodeUnit>>) returns (r: string)
    ensures r == ColorClass(displayName)
  {
    if displayName.None? || displayName.value == [] {
      return "bg-blue-500";
    }
    var name := displayName.value;
    var hash := 0;
    for i := 0 to |name|
      invariant hash == Hash(name[..i])
    {
      assert name[..i + 1][..i] == name[..i];
      hash := name[i] as int + (ShiftLeft5(hash) - hash);
    }
    assert name[..|name|] == name;
    var idx := Abs(hash) % |Classes|;
    r := Classes[idx];
  }
}
