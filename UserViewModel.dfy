/** A user as displayed: the name shown and its one- or two-letter initials. */
module UserViews {

  import opened Text

  datatype UserViewModel = UserViewModel(
    username: string, email: string, fullName: string, createdDate: int, isActive: bool)
  {
    function DisplayName(): string { ChooseDisplayName(fullName, username) }
    function Initials(): string { GetInitials(DisplayName()) }
  }

  /** The full name when it is not empty (white space counts as a name), else the username. */
  function ChooseDisplayName(fullName: string, username: string): (r: string)
    ensures fullName != "" ==> r == fullName
    ensures fullName == "" ==> r == username
  {
    if fullName != "" then fullName else username
  }

  /** Length of the run of non-space characters at the start of `s`. */
  function WordLength(s: string): (n: nat)
    ensures n <= |s|
    ensures forall i :: 0 <= i < n ==> s[i] != ' '
    ensures n < |s| ==> s[n] == ' '
  {
    if s == [] || s[0] == ' ' then 0 else 1 + WordLength(s[1..])
  }

  /** Position `i` of `s` opens a word: a non-space at the start or after a space. */
  predicate IsWordStart(s: string, i: nat)
    requires i < |s|
  {
    s[i] != ' ' && (i == 0 || s[i - 1] == ' ')
  }

  /** The number of word-opening positions of `s` at or after `i`. */
  function WordStartsFrom(s: string, i: nat): nat
    requires i <= |s|
    decreases |s| - i
  {
    if i == |s| then 0
    else (if IsWordStart(s, i) then 1 else 0) + WordStartsFrom(s, i + 1)
  }

  /** `s` with every space removed. */
  function WithoutSpaces(s: string): string {
    if s == [] then [] else (if s[0] == ' ' then [] else [s[0]]) + WithoutSpaces(s[1..])
  }

  /** Space-free text followed by the rest: the spaces removed from the whole are those of the rest. */
  lemma {:induction false} SpaceFreePrefix(s: string, n: nat)
    requires n <= |s| && forall i :: 0 <= i < n ==> s[i] != ' '
    ensures WithoutSpaces(s) == s[..n] + WithoutSpaces(s[n..])
    decreases n
  {
    if n > 0 {
      SpaceFreePrefix(s[1..], n - 1);
      assert s[1..][n - 1..] == s[n..];
      assert s[..n] == [s[0]] + s[1..][..n - 1];
    }
  }

  lemma JoinCons(word: string, rest: seq<string>)
    ensures Join("", [word] + rest) == word + Join("", rest)
  {
    if |rest| == 0 {
      assert [word] + rest == [word];
    } else {
      assert ([word] + rest)[1..] == rest;
    }
  }

  /** `s.Split(' ', StringSplitOptions.RemoveEmptyEntries)`: the maximal space-free runs, in order. */
  function Words(s: string): (words: seq<string>)
    ensures forall i :: 0 <= i < |words| ==> |words[i]| > 0 && ' ' !in words[i]
    decreases |s|
  {
    if s == [] then []
    else if s[0] == ' ' then Words(s[1..])
    else
      var n := WordLength(s);
      assert n > 0;
      [s[..n]] + Words(s[n..])
  }

  /** Together the words spell `s` with its spaces removed. */
  lemma {:induction false} WordsSpellName(s: string)
    ensures Join("", Words(s)) == WithoutSpaces(s)
    decreases |s|
  {
    if s != [] {
      if s[0] == ' ' {
        WordsSpellName(s[1..]);
      } else {
        var n := WordLength(s);
        WordsSpellName(s[n..]);
        SpaceFreePrefix(s, n);
        JoinCons(s[..n], Words(s[n..]));
      }
    }
  }

  /** A run of non-spaces after position `i` opens no word. */
  lemma {:induction false} NoStartsInsideWord(s: string, i: nat, j: nat)
    requires i < j <= |s| && forall k :: i <= k < j ==> s[k] != ' '
    ensures WordStartsFrom(s, i + 1) == WordStartsFrom(s, j)
    decreases j - i
  {
    if i + 1 < j {
      assert !IsWordStart(s, i + 1);
      NoStartsInsideWord(s, i + 1, j);
    }
  }

  /** The first word of `s[i..]`, seen in `s`: a space-free run ended by a space or the end. */
  lemma WordRunInText(s: string, i: nat)
    requires i < |s|
    ensures var n := WordLength(s[i..]);
            && i + n <= |s| && (forall k :: i <= k < i + n ==> s[k] != ' ')
            && (i + n < |s| ==> s[i + n] == ' ')
  {
    var t := s[i..];
    var n := WordLength(t);
    forall k | i <= k < i + n
      ensures s[k] != ' '
    {
      assert s[k] == t[k - i];
    }
    if i + n < |s| {
      assert s[i + n] == t[n];
    }
  }

  /** A space at `i` contributes no word. */
  lemma WordsSkipSpace(s: string, i: nat)
    requires i < |s| && s[i] == ' '
    ensures |Words(s[i..])| == |Words(s[i + 1..])|
  {
    assert s[i..][1..] == s[i + 1..];
  }

  /** A non-space at `i` opens one word, which runs to the next space. */
  lemma WordsTakeWord(s: string, i: nat)
    requires i < |s| && s[i] != ' '
    ensures var n := WordLength(s[i..]); n > 0 && |Words(s[i..])| == 1 + |Words(s[i + n..])|
  {
    var t := s[i..];
    var n := WordLength(t);
    assert t[n..] == s[i + n..];
  }

  /** Split returns one entry per word-opening position. */
  lemma {:induction false} WordsCountStarts(s: string, i: nat)
    requires i <= |s|
    requires i == 0 || i == |s| || s[i - 1] == ' ' || s[i] == ' '
    ensures |Words(s[i..])| == WordStartsFrom(s, i)
    decreases |s| - i
  {
    if i == |s| {
      assert s[i..] == [];
    } else if s[i] == ' ' {
      WordsSkipSpace(s, i);
      WordsCountStarts(s, i + 1);
      assert !IsWordStart(s, i);
    } else {
      var n := WordLength(s[i..]);
      WordsTakeWord(s, i);
      WordRunInText(s, i);
      NoStartsInsideWord(s, i, i + n);
      WordsCountStarts(s, i + n);
      assert IsWordStart(s, i);
      assert WordStartsFrom(s, i) == 1 + WordStartsFrom(s, i + n);
    }
  }

  /** The number of words is the number of word-opening positions. */
  lemma WordCount(s: string)
    ensures |Words(s)| == WordStartsFrom(s, 0)
  {
    WordsCountStarts(s, 0);
    assert s[0..] == s;
  }

  /** The first non-space character of `s` opens its first word. */
  lemma {:induction false} FirstWordStartsAtFirstNonSpace(s: string, k: nat)
    requires k < |s| && s[k] != ' ' && forall i :: 0 <= i < k ==> s[i] == ' '
    ensures |Words(s)| >= 1 && Words(s)[0][0] == s[k]
  {
    if k > 0 {
      FirstWordStartsAtFirstNonSpace(s[1..], k - 1);
    }
  }

  /** A name of at most one character has at most one word. */
  lemma ShortNameAtMostOneWord(s: string)
    ensures |s| <= 1 ==> |Words(s)| <= 1
  {
    if |s| == 1 {
      assert s[1..] == [];
    }
  }

  function GetInitials(name: string): (r: string)
    ensures 1 <= |r| <= 2
    ensures name == "" ==> r == "U"
    ensures |name| == 1 ==> r == ToUpper(name)
  {
    if name == "" then "U"
    else
      ShortNameAtMostOneWord(name);
      var words := Words(name);
      if |words| >= 2 then ToUpper([words[0][0], words[1][0]])
      else if |name| >= 2 then ToUpper(name[..2])
      else ToUpper(name)
  }

  /**
   * With two or more words the initials are the upper-cased first letters of the
   * first two words; the first of them is the first non-space character of the name.
   */
  lemma InitialsOfSeveralWords(name: string, k: nat)
    requires k < |name| && name[k] != ' ' && forall i :: 0 <= i < k ==> name[i] == ' '
    requires |Words(name)| >= 2
    ensures GetInitials(name) == [UpperChar(name[k]), UpperChar(Words(name)[1][0])]
  {
    FirstWordStartsAtFirstNonSpace(name, k);
  }

  /** A name of at most one word keeps its first two raw characters, a leading space included. */
  lemma InitialsOfOneWord(name: string)
    requires |Words(name)| < 2 && |name| >= 2
    ensures GetInitials(name) == [UpperChar(name[0]), UpperChar(name[1])]
  {
  }

  /** " bob" is one word, and its initials are the space and the upper-cased "b". */
  lemma LeadingSpaceInitials()
    ensures GetInitials(" bob") == " B"
  {
    WordCount(" bob");
    assert IsWordStart(" bob", 1) && !IsWordStart(" bob", 2) && !IsWordStart(" bob", 3);
    InitialsOfOneWord(" bob");
  }

  /** A user with neither a full name nor a username shows as "U". */
  lemma AnonymousUserInitials(u: UserViewModel)
    requires u.fullName == "" && u.username == ""
    ensures u.Initials() == "U"
  {
  }
}
