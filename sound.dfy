/**
 * Sound paths and the players built on them. Playing a sound is recorded in a
 * log of the paths handed to `Audio`, not performed.
 */
module Sound {

  import opened Wrappers
  import opened Strings

  const SoundsPath: string := "/sounds"

  /** `getSoundPath`: add ".mp3" when missing, and the sounds directory unless the path is absolute. */
  function GetSoundPath(name: string): (p: string)
    ensures StartsWith(p, "/") && EndsWith(p, ".mp3")
  {
    var base := if EndsWith(name, ".mp3") then name else name + ".mp3";
    assert EndsWith(base, ".mp3") by {
      if !EndsWith(name, ".mp3") {
        assert base[|base| - 4..] == ".mp3";
      }
    }
    if StartsWith(base, "/") then base else SoundsPath + "/" + base
  }

  /** A path that is already absolute and ends in ".mp3" is left alone, and only such a path. */
  lemma GetSoundPathFixedPoints(name: string)
    ensures GetSoundPath(name) == name <==> StartsWith(name, "/") && EndsWith(name, ".mp3")
  {
  }

  lemma GetSoundPathIdempotent(name: string)
    ensures GetSoundPath(GetSoundPath(name)) == GetSoundPath(name)
  {
    GetSoundPathFixedPoints(GetSoundPath(name));
  }

  /** A bare file name lands in the sounds directory with ".mp3" appended. */
  lemma BareName(name: string)
    requires !StartsWith(name, "/") && !EndsWith(name, ".mp3")
    ensures GetSoundPath(name) == "/sounds/" + name + ".mp3"
  {
    var base := name + ".mp3";
    assert !StartsWith(base, "/") by {
      if |name| > 0 {
        assert base[0] == name[0];
        assert name[..1] == base[..1];
      } else {
        assert base[0] == '.';
      }
    }
  }

  /** The path `playSound` hands to `Audio`. */
  function PlayPath(pathOrName: string): (p: string)
    ensures StartsWith(pathOrName, "/") ==> p == pathOrName
    ensures StartsWith(p, "/")
    ensures EndsWith(pathOrName, ".mp3") ==> EndsWith(p, ".mp3")
  {
    if StartsWith(pathOrName, "/") then pathOrName else GetSoundPath(pathOrName)
  }

  /** An absolute argument is played as given, even without ".mp3". */
  lemma AbsolutePlayedVerbatim(pathOrName: string)
    requires StartsWith(pathOrName, "/") && !EndsWith(pathOrName, ".mp3")
    ensures PlayPath(pathOrName) == pathOrName
    ensures PlayPath(pathOrName) != GetSoundPath(pathOrName)
  {
  }

  /** The path the toggle plays on its call number `n` (from 0): A on even, B on odd. */
  function ToggleChoice(pathA: string, pathB: string, n: nat): string {
    PlayPath(if n % 2 == 0 then pathA else pathB)
  }

  /** The closure returned by `createToggleSound`, with its `nextIsA` flag. */
  class ToggleSound {
    const pathA: string
    const pathB: string
    var nextIsA: bool
    /** The paths played so far, first call first. */
    var played: seq<string>

    ghost predicate Valid()
      reads this
    {
      nextIsA == (|played| % 2 == 0) &&
      forall n :: 0 <= n < |played| ==> played[n] == ToggleChoice(pathA, pathB, n)
    }

    constructor (a: string, b: string)
      ensures pathA == a && pathB == b
      ensures nextIsA && played == []
      ensures Valid()
    {
      pathA := a;
      pathB := b;
      nextIsA := true;
      played := [];
    }

    /** One call of the closure: play the current side, then flip. */
    method Call()
      requires Valid()
      modifies this
      ensures Valid()
      ensures played == old(played) + [PlayPath(if old(nextIsA) then pathA else pathB)]
      ensures played[|played| - 1] == ToggleChoice(pathA, pathB, |old(played)|)
      ensures nextIsA == !old(nextIsA)
    {
      played := played + [PlayPath(if nextIsA then pathA else pathB)];
      nextIsA := !nextIsA;
    }
  }

  /** Two toggles keep separate flags: calling one leaves the other as it was. */
  method SeparateToggles(t: ToggleSound, u: ToggleSound)
    requires t != u && t.Valid() && u.Valid()
    modifies t
    ensures t.Valid() && u.Valid()
    ensures u.played == old(u.played) && u.nextIsA == old(u.nextIsA)
  {
    t.Call();
  }

  /**
   * `playRandomSound` with the random index as a parameter: nothing for an
   * empty list, else the chosen entry's path.
   */
  function RandomSoundPlayed(paths: seq<string>, index: nat): (r: Option<string>)
    requires paths != [] ==> index < |paths|
    ensures r.None? <==> paths == []
    ensures r.Some? ==> exists i :: 0 <= i < |paths| && r.value == PlayPath(paths[i])
  {
    if |paths| == 0 then None else Some(PlayPath(paths[index]))
  }
}
