/** The two display helpers of the Teams view: the theme chosen from a team's name
    (`getTeamTheme`, Teams.js lines 47-79) and the name shown for a member's e-mail
    address (Teams.js lines 253-255). */
module TeamsView {
  import opened Text

  /** The three themes; their colours, icons and gradients are cosmetic. */
  datatype Theme = MarvelTheme | DcTheme | DefaultTheme

  /** `getTeamTheme`: a case-insensitive search for "marvel", then for "dc". */
  function GetTeamTheme(teamName: string): (t: Theme)
    ensures t == MarvelTheme <==> Contains(Lower(teamName), "marvel")
    ensures t == DcTheme <==> !Contains(Lower(teamName), "marvel") && Contains(Lower(teamName), "dc")
    ensures t == DefaultTheme <==> !Contains(Lower(teamName), "marvel") && !Contains(Lower(teamName), "dc")
  {
    var name := Lower(teamName);
    if Contains(name, "marvel") then MarvelTheme
    else if Contains(name, "dc") then DcTheme
    else DefaultTheme
  }

  /** The theme depends on the name only up to case. */
  lemma ThemeIgnoresCase(teamName: string)
    ensures GetTeamTheme(Lower(teamName)) == GetTeamTheme(teamName)
  {
    LowerIdempotent(teamName);
  }

  /** `sub` cannot occur in `s` when no position that could start it holds `sub`'s first character. */
  lemma {:induction false} NotContainedByFirst(s: string, sub: string)
    requires |sub| > 0
    requires forall i :: 0 <= i <= |s| - |sub| ==> s[i] != sub[0]
    ensures !Contains(s, sub)
    decreases |s|
  {
    if |sub| <= |s| {
      assert s[..|sub|][0] == s[0] != sub[0];
      assert forall i :: 0 <= i <= |s[1..]| - |sub| ==> s[1..][i] == s[i + 1];
      NotContainedByFirst(s[1..], sub);
    }
  }

  lemma LowerTeamMarvel()
    ensures Lower("Team Marvel") == "team marvel"
  {
    LowerByChars("Team Marvel", "team marvel");
  }

  lemma LowerTeamDc()
    ensures Lower("Team DC") == "team dc"
  {
    LowerByChars("Team DC", "team dc");
  }

  /** The seeded Marvel team gets the Marvel theme. */
  lemma TeamMarvelTheme()
    ensures GetTeamTheme("Team Marvel") == MarvelTheme
  {
    LowerTeamMarvel();
    MarvelInTeamMarvel();
  }

  lemma MarvelInTeamMarvel()
    ensures Contains("team marvel", "marvel")
  {
    var name, sub := "team marvel", "marvel";
    assert name[5] == sub[0] && name[6] == sub[1] && name[7] == sub[2];
    assert name[8] == sub[3] && name[9] == sub[4] && name[10] == sub[5];
    ContainsAtChars(name, sub, 5);
  }

  /** The seeded DC team gets the DC theme. */
  lemma TeamDcTheme()
    ensures GetTeamTheme("Team DC") == DcTheme
  {
    LowerTeamDc();
    NotContainedByFirst("team dc", "marvel");
    ContainsAtChars("team dc", "dc", 5);
  }

  /** `w.charAt(0).toUpperCase() + w.slice(1)`. */
  function Capitalize(w: string): string {
    if w == [] then w else [UpperChar(w[0])] + w[1..]
  }

  /** `ws.map(w => ...)` with `Capitalize`. */
  function CapitalizeAll(ws: seq<string>): (r: seq<string>)
    ensures |r| == |ws|
  {
    if ws == [] then [] else [Capitalize(ws[0])] + CapitalizeAll(ws[1..])
  }

  /** The member display name: the local part of the address, dots turned into spaces,
      and the first character of every space-separated word upper-cased. */
  function MemberDisplayName(member: string): string {
    Join(CapitalizeAll(Split(ReplaceAll(Split(member, '@')[0], '.', ' '), ' ')), ' ')
  }

  /** Upper-cases the characters that start a word: the first one when `atStart`, and
      every one that follows a space. */
  function CapitalizeFrom(s: string, atStart: bool): (r: string)
    ensures |r| == |s|
    ensures forall i :: 0 <= i < |s| ==>
              r[i] == (if (i == 0 && atStart) || (i > 0 && s[i - 1] == ' ') then UpperChar(s[i]) else s[i])
  {
    if s == [] then [] else [if atStart then UpperChar(s[0]) else s[0]] + CapitalizeFrom(s[1..], s[0] == ' ')
  }

  /** Splitting at spaces, capitalising every word and joining again is `CapitalizeFrom`
      (and, leaving the first word alone, the same with `atStart` false). */
  lemma {:induction false} SplitCapitalizeJoin(s: string)
    ensures Join(CapitalizeAll(Split(s, ' ')), ' ') == CapitalizeFrom(s, true)
    ensures Join([Split(s, ' ')[0]] + CapitalizeAll(Split(s, ' ')[1..]), ' ') == CapitalizeFrom(s, false)
  {
    if s != [] {
      var t := s[1..];
      SplitCapitalizeJoin(t);
      var words := Split(t, ' ');
      if s[0] == ' ' {
        assert Split(s, ' ') == [""] + words;
        assert CapitalizeAll([""] + words) == [""] + CapitalizeAll(words);
        assert ([""] + CapitalizeAll(words))[1..] == CapitalizeAll(words);
        assert ([""] + words)[1..] == words;
      } else {
        var rest := words[1..];
        assert Split(s, ' ') == [[s[0]] + words[0]] + rest;
        var tail := [words[0]] + CapitalizeAll(rest);
        assert tail[0] == words[0] && tail[1..] == CapitalizeAll(rest);
        assert words == [words[0]] + rest;
        calc {
          Join(CapitalizeAll(Split(s, ' ')), ' ');
          Join([[UpperChar(s[0])] + words[0]] + CapitalizeAll(rest), ' ');
          { JoinPrepend(UpperChar(s[0]), tail, ' '); }
          [UpperChar(s[0])] + Join(tail, ' ');
        }
        assert ([[s[0]] + words[0]] + rest)[1..] == rest;
        JoinPrepend(s[0], tail, ' ');
      }
    }
  }

  /** The character shown at position `i` of the local part `local`. */
  function DisplayChar(local: string, i: nat): char
    requires i < |local|
  {
    if local[i] == '.' || local[i] == ' ' then ' '
    else if i == 0 || local[i - 1] == '.' || local[i - 1] == ' ' then UpperChar(local[i])
    else local[i]
  }

  /** Capitalising the local part with dots turned into spaces, character by character. */
  lemma CapitalizedLocalChars(local: string)
    ensures |CapitalizeFrom(ReplaceAll(local, '.', ' '), true)| == |local|
    ensures forall i :: 0 <= i < |local| ==>
              CapitalizeFrom(ReplaceAll(local, '.', ' '), true)[i] == DisplayChar(local, i)
  {
    var spaced := ReplaceAll(local, '.', ' ');
    var r := CapitalizeFrom(spaced, true);
    forall i | 0 <= i < |local|
      ensures r[i] == DisplayChar(local, i)
    {
      assert spaced[i] == (if local[i] == '.' then ' ' else local[i]);
      assert i > 0 ==> spaced[i - 1] == (if local[i - 1] == '.' then ' ' else local[i - 1]);
      assert UpperChar(' ') == ' ';
    }
  }

  /** What the member display name is, character by character: as long as the text
      before the first '@', a space where that text has '.' or ' ', and every other
      character upper-cased when it starts the text or follows a '.' or ' '. */
  lemma MemberDisplayNameChars(member: string)
    ensures Split(member, '@')[0] <= member && '@' !in Split(member, '@')[0]
    ensures |Split(member, '@')[0]| == |member| || member[|Split(member, '@')[0]|] == '@'
    ensures |MemberDisplayName(member)| == |Split(member, '@')[0]|
    ensures forall i :: 0 <= i < |Split(member, '@')[0]| ==>
              MemberDisplayName(member)[i] == DisplayChar(Split(member, '@')[0], i)
  {
    var local := Split(member, '@')[0];
    SplitHead(member, '@');
    SplitCapitalizeJoin(ReplaceAll(local, '.', ' '));
    CapitalizedLocalChars(local);
  }

  /** The local part ends at the first '@'. */
  lemma LocalPartAt(member: string, k: nat)
    requires k < |member| && member[k] == '@' && '@' !in member[..k]
    ensures Split(member, '@')[0] == member[..k]
  {
    SplitHead(member, '@');
  }

  lemma IronManLocalPart()
    ensures "iron.man@marvel.com"[8] == '@' && '@' !in "iron.man@marvel.com"[..8]
    ensures "iron.man@marvel.com"[..8] == "iron.man"
  {
  }

  lemma IronManChars(r: string)
    requires |r| == 8 && forall i :: 0 <= i < 8 ==> r[i] == DisplayChar("iron.man", i)
    ensures r == "Iron Man"
  {
  }

  /** The display name of a seeded member's address. */
  lemma MemberDisplayNameExample()
    ensures MemberDisplayName("iron.man@marvel.com") == "Iron Man"
  {
    IronManLocalPart();
    LocalPartAt("iron.man@marvel.com", 8);
    MemberDisplayNameChars("iron.man@marvel.com");
    IronManChars(MemberDisplayName("iron.man@marvel.com"));
  }
}
