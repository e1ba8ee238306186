/**
 * The sidebar: the avatar initials derived from the signed-in email, the
 * name line under the avatar.
 */
module Sidebar {
  import opened Base
  import opened Strings

  /** `part[0]?.toUpperCase() || ""`: the upper-cased first character, or nothing for an empty part. */
  function FirstLetter(part: string): (r: string)
    ensures |r| <= 1
    ensures part != [] ==> r == [UpperChar(part[0])]
    ensures part == [] ==> r == ""
  {
    if part == [] then "" else [UpperChar(part[0])]
  }

  /** The first letters of the parts, joined. */
  function FirstLetters(parts: seq<string>): (r: string)
    ensures |r| <= |parts|
  {
    if parts == [] then "" else FirstLetter(parts[0]) + FirstLetters(parts[1..])
  }

  /** The fallback shown when there is no email. */
  const NoEmailInitials: string := "AC"

  /**
   * `initials`: with an email, the first letters of the dot-separated parts
   * of the text before its first `@`, upper-cased, at most two of them;
   * without one, "AC".
   */
  function Initials(userEmail: Option<string>): (r: string)
    ensures |r| <= 2
    ensures userEmail.None? || userEmail.value == "" ==> r == NoEmailInitials
  {
    if userEmail.None? || userEmail.value == "" then NoEmailInitials
    else
      var letters := FirstLetters(Split(BeforeFirst(userEmail.value, '@'), '.'));
      if |letters| <= 2 then letters else letters[..2]
  }

  /**
   * A reference reading of the letters, in one scan: every character that
   * starts the text or follows a dot and is not itself a dot, upper-cased.
   */
  function ScanInitials(s: string, atStart: bool): string
    decreases |s|
  {
    if s == [] then ""
    else if s[0] == '.' then ScanInitials(s[1..], true)
    else (if atStart then [UpperChar(s[0])] else "") + ScanInitials(s[1..], false)
  }

  /** Scanning through a dot-free word contributes at most its first letter. */
  lemma {:induction false} ScanWord(w: string, t: string, atStart: bool)
    requires '.' !in w
    ensures ScanInitials(w + t, atStart) ==
      (if atStart && w != [] then [UpperChar(w[0])] else "") + ScanInitials(t, atStart && w == [])
    decreases |w|
  {
    if w != [] {
      assert w[0] in w && '.' !in w[1..];
      assert (w + t)[0] == w[0];
      assert (w + t)[1..] == w[1..] + t;
      ScanWord(w[1..], t, false);
    } else {
      assert w + t == t;
    }
  }

  /** The split-and-map computation agrees with the one-scan reading. */
  lemma {:induction false} FirstLettersScan(s: string)
    ensures FirstLetters(Split(s, '.')) == ScanInitials(s, true)
    decreases |s|
  {
    var head := BeforeFirst(s, '.');
    if |head| == |s| {
      assert head == s;
      ScanWord(s, "", true);
      assert s + "" == s;
    } else {
      var rest := s[|head| + 1..];
      FirstLettersScan(rest);
      assert Split(s, '.') == [head] + Split(rest, '.');
      assert s == head + ("." + rest);
      ScanWord(head, "." + rest, true);
      assert ("." + rest)[1..] == rest;
    }
  }

  /** The initials hold no lower-case ASCII letter. */
  lemma {:induction false} ScanNoLower(s: string, atStart: bool)
    ensures forall i :: 0 <= i < |ScanInitials(s, atStart)| ==> !('a' <= ScanInitials(s, atStart)[i] <= 'z')
    decreases |s|
  {
    if s != [] {
      ScanNoLower(s[1..], true);
      ScanNoLower(s[1..], false);
    }
  }

  /** Everything the initials show is an upper-cased first letter, so no lower-case ASCII letter appears. */
  lemma InitialsNotLower(userEmail: Option<string>)
    ensures forall i :: 0 <= i < |Initials(userEmail)| ==> !('a' <= Initials(userEmail)[i] <= 'z')
  {
    if userEmail.Some? && userEmail.value != "" {
      var local := BeforeFirst(userEmail.value, '@');
      FirstLettersScan(local);
      ScanNoLower(local, true);
    }
  }

  /** For example, `ann.lee@x.io` shows "AL". */
  lemma InitialsExample()
    ensures Initials(Some("ann.lee@x.io")) == "AL"
  {
    ExampleLocalPart();
    FirstLettersScan("ann.lee");
    ExampleScan();
  }

  lemma ExampleLocalPart()
    ensures BeforeFirst("ann.lee@x.io", '@') == "ann.lee"
  {
    assert "ann.lee@x.io"[7] == '@';
  }

  lemma ExampleScan()
    ensures ScanInitials("ann.lee", true) == "AL"
  {
    assert "ann.lee" == "ann" + ".lee";
    ScanWord("ann", ".lee", true);
    assert (".lee")[1..] == "lee";
    assert "lee" == "lee" + "";
    ScanWord("lee", "", true);
  }

  /** An email whose part before `@` is only dots (or empty) gives no initials at all. */
  lemma {:induction false} DotsOnlyNoInitials(s: string)
    requires forall i :: 0 <= i < |s| ==> s[i] == '.'
    ensures ScanInitials(s, true) == ""
    decreases |s|
  {
    if s != [] {
      DotsOnlyNoInitials(s[1..]);
    }
  }

  /** The avatar's text: the initials, or "A" when they are empty. */
  function AvatarText(userEmail: Option<string>): (r: string)
    ensures r != ""
    ensures Initials(userEmail) != "" ==> r == Initials(userEmail)
  {
    if Initials(userEmail) != "" then Initials(userEmail) else "A"
  }

  /** An email starting with `@` has an empty local part, and the avatar falls back to "A". */
  lemma EmptyLocalPart(rest: string)
    ensures AvatarText(Some("@" + rest)) == "A"
  {
    assert BeforeFirst("@" + rest, '@') == "";
    assert Split("", '.') == [""];
  }

  /** The line under the avatar: the email, or "Signed in" without one. */
  function NameLine(userEmail: Option<string>): (r: string)
    ensures r != ""
    ensures userEmail.Some? && userEmail.value != "" ==> r == userEmail.value
  {
    if userEmail.Some? && userEmail.value != "" then userEmail.value else "Signed in"
  }
}
