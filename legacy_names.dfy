/**
 * src/cluster-api-manager/instances/common.go: the older, hash-based
 * GenerateName. The name is the user, then the first five bytes of the MD5
 * digest of the last guest (or of "Fullname Email" without guests), then
 * those of the last repo (or of "" without repos), each printed as
 * lower-case hex, all lower-cased.
 *
 * MD5 is the parameter `md5`, from the string's bytes to its 16-byte digest.
 */
module LegacyNames {
  import opened GoStrings
  import opened InstanceTypes

  newtype byte = x: int | 0 <= x < 256

  /** An MD5 digest: 16 bytes. */
  type Digest = d: seq<byte> | |d| == 16 witness seq(16, _ => 0)

  const HexDigits: string := "0123456789abcdef"

  /** A character `%x` can print. */
  predicate IsHexDigit(ch: char)
  {
    ch in HexDigits
  }

  /** `fmt.Sprintf("%x", bs)`: two lower-case hex digits per byte, high nibble first. */
  function Hex(bs: seq<byte>): (r: string)
    ensures |r| == 2 * |bs|
    ensures forall i :: 0 <= i < |r| ==> IsHexDigit(r[i])
  {
    if bs == [] then ""
    else [HexDigits[bs[0] as int / 16], HexDigits[bs[0] as int % 16]] + Hex(bs[1..])
  }

  /** Hex output holds no upper-case letter, so lower-casing keeps it. */
  lemma HexIsLower(bs: seq<byte>)
    ensures IsLower(Hex(bs))
  {
    var h := Hex(bs);
    forall i | 0 <= i < |h|
      ensures !IsUpper(h[i])
    {
      assert IsHexDigit(h[i]);
    }
  }

  /** The input of the first hash: the last guest, or "Fullname Email" when there are none. */
  function FirstHashInput(setup: SetupSpec): string
  {
    if setup.guests == [] then setup.fullname + " " + setup.email
    else setup.guests[|setup.guests| - 1]
  }

  /** The input of the second hash: the last repo, or "" when there are none. */
  function SecondHashInput(setup: SetupSpec): string
  {
    if setup.repos == [] then "" else setup.repos[|setup.repos| - 1]
  }

  /** The name GenerateName produces. */
  function HashedName(setup: SetupSpec, md5: string -> Digest): string
  {
    ToLower(setup.user + "-" + Hex(md5(FirstHashInput(setup))[..5])
            + "-" + Hex(md5(SecondHashInput(setup))[..5]))
  }

  /** GenerateName: each loop keeps only the last element it sees. */
  method GenerateName(instance: InstanceSpec, md5: string -> Digest) returns (name: string)
    ensures name == HashedName(instance.setup, md5)
  {
    var setup := instance.setup;
    name := setup.user;
    var portionOne := setup.fullname + " " + setup.email;
    for j := 0 to |setup.guests|
      invariant portionOne == if j == 0 then setup.fullname + " " + setup.email else setup.guests[j - 1]
    {
      portionOne := setup.guests[j];
    }
    var hashedString := md5(portionOne);
    name := name + "-" + Hex(hashedString[0..5]);
    var portionTwo := "";
    for j := 0 to |setup.repos|
      invariant portionTwo == if j == 0 then "" else setup.repos[j - 1]
    {
      portionTwo := setup.repos[j];
    }
    hashedString := md5(portionTwo);
    name := name + "-" + Hex(hashedString[0..5]);
    name := ToLower(name);
  }

  /**
   * The name is the lower-cased user, "-", ten hex digits, "-", ten hex
   * digits; so it is 22 characters longer than the user.
   */
  lemma HashedNameShape(setup: SetupSpec, md5: string -> Digest)
    ensures var name := HashedName(setup, md5);
      && |name| == |setup.user| + 22
      && name[..|setup.user|] == ToLower(setup.user)
      && name[|setup.user|] == '-' && name[|setup.user| + 11] == '-'
      && (forall i :: |setup.user| < i < |name| && i != |setup.user| + 11 ==> IsHexDigit(name[i]))
      && IsLower(name)
  {
    var u := setup.user;
    var h1 := Hex(md5(FirstHashInput(setup))[..5]);
    var h2 := Hex(md5(SecondHashInput(setup))[..5]);
    HexIsLower(md5(FirstHashInput(setup))[..5]);
    HexIsLower(md5(SecondHashInput(setup))[..5]);
    ToLowerConcat(u, "-" + h1 + "-" + h2);
    assert u + "-" + h1 + "-" + h2 == u + ("-" + h1 + "-" + h2);
    ToLowerOfLower("-" + h1 + "-" + h2);
    var name := HashedName(setup, md5);
    assert name == ToLower(u) + ("-" + h1 + "-" + h2);
    forall i | |u| < i < |name| && i != |u| + 11
      ensures IsHexDigit(name[i])
    {
      if i < |u| + 11 {
        assert name[i] == h1[i - |u| - 1];
      } else {
        assert name[i] == h2[i - |u| - 12];
      }
    }
  }

  /** Only the last guest counts: guest lists with the same last element give the same name. */
  lemma OnlyLastGuestCounts(setup: SetupSpec, earlier: seq<string>, md5: string -> Digest)
    requires setup.guests != []
    ensures HashedName(setup.(guests := earlier + [setup.guests[|setup.guests| - 1]]), md5) == HashedName(setup, md5)
  {
  }

  /** Without guests the first hash is over "Fullname Email", whatever the user. */
  lemma NoGuestsHashesFullnameAndEmail(setup: SetupSpec)
    requires setup.guests == []
    ensures FirstHashInput(setup) == setup.fullname + " " + setup.email
  {
  }

  /** Only the last repo counts, and without repos the second hash is over "". */
  lemma OnlyLastRepoCounts(setup: SetupSpec, earlier: seq<string>, md5: string -> Digest)
    ensures setup.repos == [] ==> SecondHashInput(setup) == ""
    ensures setup.repos != [] ==>
      HashedName(setup.(repos := earlier + [setup.repos[|setup.repos| - 1]]), md5) == HashedName(setup, md5)
  {
  }

  /** Specs with the same user, last guest (or fullname and email) and last repo get the same name. */
  lemma NameDependsOnHashInputs(a: SetupSpec, b: SetupSpec, md5: string -> Digest)
    requires a.user == b.user
    requires FirstHashInput(a) == FirstHashInput(b) && SecondHashInput(a) == SecondHashInput(b)
    ensures HashedName(a, md5) == HashedName(b, md5)
  {
  }
}
