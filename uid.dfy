/** Short human-readable codes built from random draws
    (backend/src/util/GenerationUID.ts).

    Each generator appends one character per draw of `Math.random()`: a letter
    picked with `charAt(Math.floor(u * 26))`, or a digit written by
    `Math.floor(u * 10).toString()`.  The draws are inputs here. */
module Uid {
  import opened Common

  const Letters: string := "ABCDEFGHIJKLMNOPQRSTUVWXYZ"

  /** `String.prototype.charAt`: the character at `i`, or "" when `i` is out of range. */
  function CharAt(s: string, i: int): string {
    if 0 <= i < |s| then [s[i]] else ""
  }

  /** The characters the loop `result += alphabet.charAt(Math.floor(Math.random() * alphabet.length))`
      appends for the draws `rs`, in order. */
  function CharsFrom(alphabet: string, rs: seq<real>): string {
    if rs == [] then ""
    else CharsFrom(alphabet, rs[..|rs| - 1]) + CharAt(alphabet, ScaledFloor(rs[|rs| - 1], |alphabet|))
  }

  /** Every index drawn is in range, so `charAt` never yields "" and each draw
      contributes exactly one character of the alphabet. */
  lemma {:induction false} CharsFromShape(alphabet: string, rs: seq<real>)
    requires |alphabet| > 0 && AllDraws(rs)
    ensures |CharsFrom(alphabet, rs)| == |rs|
    ensures forall i :: 0 <= i < |rs| ==> CharsFrom(alphabet, rs)[i] in alphabet
  {
    if rs != [] {
      var front := rs[..|rs| - 1];
      CharsFromShape(alphabet, front);
      ScaledFloorInRange(rs[|rs| - 1], |alphabet|);
      var c := CharAt(alphabet, ScaledFloor(rs[|rs| - 1], |alphabet|));
      assert |c| == 1 && c[0] in alphabet;
      forall i | 0 <= i < |rs| ensures CharsFrom(alphabet, rs)[i] in alphabet {
        if i < |rs| - 1 {
          assert CharsFrom(alphabet, rs)[i] == CharsFrom(alphabet, front)[i];
        }
      }
    }
  }

  /** The loop that appends one random character of `alphabet` per draw to `init`. */
  method AppendRandomChars(init: string, alphabet: string, rs: seq<real>) returns (result: string)
    ensures result == init + CharsFrom(alphabet, rs)
  {
    result := init;
    var i := 0;
    while i < |rs|
      invariant 0 <= i <= |rs|
      invariant result == init + CharsFrom(alphabet, rs[..i])
    {
      assert rs[..i + 1][..i] == rs[..i];
      result := result + CharAt(alphabet, ScaledFloor(rs[i], |alphabet|));
      i := i + 1;
    }
    assert rs[..|rs|] == rs;
  }

  /** `Math.floor(u * 10).toString()` for a draw `u` is the decimal digit `d`. */
  function DigitString(d: int): string
    requires 0 <= d < 10
  {
    [('0' as int + d) as char]
  }

  /** The digits the loop `numbers += Math.floor(Math.random() * 10).toString()` produces. */
  function DigitsFrom(rs: seq<real>): (r: string)
    requires AllDraws(rs)
    ensures |r| == |rs|
    ensures forall i :: 0 <= i < |r| ==> '0' <= r[i] <= '9'
  {
    if rs == [] then ""
    else
      var d := ScaledFloor(rs[|rs| - 1], 10);
      ScaledFloorInRange(rs[|rs| - 1], 10);
      var front := DigitsFrom(rs[..|rs| - 1]);
      front + DigitString(d)
  }

  /** Three upper-case letters followed by five decimal digits. */
  predicate IsCodeShape(s: string) {
    && |s| == 8
    && (forall i :: 0 <= i < 3 ==> 'A' <= s[i] <= 'Z')
    && (forall i :: 3 <= i < 8 ==> '0' <= s[i] <= '9')
  }

  /** `generateUID()`: the first three draws pick letters, the next five pick digits. */
  method GenerateUID(rs: seq<real>) returns (uid: string)
    requires |rs| >= 8 && AllDraws(rs)
    ensures IsCodeShape(uid)
    ensures uid == CharsFrom(Letters, rs[..3]) + DigitsFrom(rs[3..8])
  {
    var prefix := AppendRandomChars("", Letters, rs[..3]);
    var numbers := "";
    var i := 0;
    while i < 5
      invariant 0 <= i <= 5
      invariant numbers == DigitsFrom(rs[3..3 + i])
    {
      assert rs[3..3 + i + 1][..i] == rs[3..3 + i];
      ScaledFloorInRange(rs[3 + i], 10);
      numbers := numbers + DigitString(ScaledFloor(rs[3 + i], 10));
      i := i + 1;
    }
    uid := prefix + numbers;
    CharsFromShape(Letters, rs[..3]);
    forall k | 0 <= k < 3 ensures 'A' <= uid[k] <= 'Z' {
      assert uid[k] == prefix[k];
      assert prefix[k] in Letters;
    }
    forall k | 3 <= k < 8 ensures '0' <= uid[k] <= '9' {
      assert uid[k] == numbers[k - 3];
    }
  }

  /** `generateRoomUID()`: "room_" followed by a code of the same shape, 13 characters. */
  method GenerateRoomUID(rs: seq<real>) returns (roomId: string)
    requires |rs| >= 8 && AllDraws(rs)
    ensures |roomId| == 13 && roomId[..5] == "room_" && IsCodeShape(roomId[5..])
    ensures roomId == "room_" + CharsFrom(Letters, rs[..3]) + DigitsFrom(rs[3..8])
  {
    var code := GenerateUID(rs);
    roomId := "room_" + code;
    assert roomId[5..] == code;
  }

  /** `generateUserUID()`: "USER_" followed by a code of the same shape. */
  method GenerateUserUID(rs: seq<real>) returns (userId: string)
    requires |rs| >= 8 && AllDraws(rs)
    ensures |userId| == 13 && userId[..5] == "USER_" && IsCodeShape(userId[5..])
    ensures userId == "USER_" + CharsFrom(Letters, rs[..3]) + DigitsFrom(rs[3..8])
  {
    var code := GenerateUID(rs);
    userId := "USER_" + code;
    assert userId[5..] == code;
  }
}
