/**
 * The navigation bar of components/common/NavbarClient.tsx: the dashboard
 * link, the avatar initials, and the component state that scrolling and
 * link clicks update.
 */
module Navbar {
  import opened Wrappers
  import opened JsArray
  import opened JsString
  import Proxy
  import Sidebar

  /** The signed-in user the navbar is given (`image` is left out). */
  datatype User = User(id: string, name: string, email: string, role: string)

  // ----- Dashboard link -----------------------------------------------------

  /** `getDashboardPath`: the login page without a user, else "/" and the role in lower case. */
  function DashboardPath(user: Option<User>): (path: string)
    ensures user == None ==> path == "/login"
    ensures user.Some? ==> |path| == |user.value.role| + 1 && StartsWith(path, "/")
    ensures forall i :: 0 <= i < |path| ==> !('A' <= path[i] <= 'Z')
  {
    match user
    case None => "/login"
    case Some(u) => "/" + ToLower(u.role)
  }

  /** Lower-casing each role name gives the name of that role's area. */
  lemma LowerRoleIsArea(role: string)
    requires role in {"ADMIN", "SELLER", "CUSTOMER"}
    ensures "/" + ToLower(role) == Proxy.Area(Sidebar.GuardRole(role))
  {
    if role == "ADMIN" {
      assert ToLower(role) == "admin";
    } else if role == "SELLER" {
      assert ToLower(role) == "seller";
    } else {
      assert ToLower(role) == "customer";
    }
  }

  /**
   * For each of the three roles the link is that role's area, which the
   * request guard lets the same role through to.
   */
  lemma DashboardPathIsOwnArea(user: User)
    requires user.role in {"ADMIN", "SELLER", "CUSTOMER"}
    ensures DashboardPath(Some(user)) == Proxy.Area(Sidebar.GuardRole(user.role))
    ensures Proxy.Handle(true, Sidebar.GuardRole(user.role), DashboardPath(Some(user))) == Proxy.Next
  {
    var r := Sidebar.GuardRole(user.role);
    LowerRoleIsArea(user.role);
    Proxy.OwnAreaPasses(r, Proxy.Area(r));
  }

  // ----- Initials -----------------------------------------------------------

  /**
   * `parts.map(n => n[0]).join("")`: the first character of each part; an
   * empty part gives `undefined`, which `join` writes as nothing.
   */
  function FirstLetters(parts: seq<string>): string {
    if parts == [] then ""
    else (if parts[0] == "" then "" else [parts[0][0]]) + FirstLetters(parts[1..])
  }

  /**
   * The characters of `s` that begin a word: not a space, and at the start
   * (when `atStart`) or right after a space.
   */
  function WordStarts(s: string, atStart: bool): string {
    if s == [] then ""
    else (if s[0] != ' ' && atStart then [s[0]] else "") + WordStarts(s[1..], s[0] == ' ')
  }

  /** `getInitials`: the first letters of the space-separated words, upper-cased, at most two. */
  function GetInitials(name: string): (initials: string)
    ensures |initials| <= 2
    ensures forall i :: 0 <= i < |initials| ==> !('a' <= initials[i] <= 'z')
  {
    Slice(ToUpper(FirstLetters(Split(name, ' '))), 0, 2)
  }

  lemma {:induction false} FirstLettersOfSplit(s: string)
    ensures FirstLetters(Split(s, ' ')) == WordStarts(s, true)
    ensures FirstLetters(Split(s, ' ')[1..]) == WordStarts(s, false)
  {
    if s != [] {
      FirstLettersOfSplit(s[1..]);
      var rest := Split(s[1..], ' ');
      if s[0] == ' ' {
        assert Split(s, ' ') == [""] + rest;
        assert Split(s, ' ')[1..] == rest;
      } else {
        var parts := Split(s, ' ');
        assert parts == [[s[0]] + rest[0]] + rest[1..];
        assert parts[1..] == rest[1..];
        assert FirstLetters(rest) == (if rest[0] == "" then "" else [rest[0][0]]) + FirstLetters(rest[1..]);
      }
    }
  }

  /**
   * The initials are the word-start characters of the name, upper-cased,
   * the first two of them; runs of spaces contribute nothing.
   */
  lemma InitialsAreWordStarts(name: string)
    ensures var starts := ToUpper(WordStarts(name, true));
      GetInitials(name) == if |starts| <= 2 then starts else starts[..2]
  {
    FirstLettersOfSplit(name);
  }

  /**
   * A word followed by the end of the string or by a space starts at most
   * once, at its first letter.
   */
  lemma {:induction false} WordStartsOfWord(w: string, rest: string, atStart: bool)
    requires forall i :: 0 <= i < |w| ==> w[i] != ' '
    requires rest == [] || rest[0] == ' '
    ensures WordStarts(w + rest, atStart) ==
      (if w != [] && atStart then [w[0]] else "") + WordStarts(rest, false)
  {
    if w == [] {
      assert w + rest == rest;
      if rest != [] {
        assert rest[0] == ' ';
      }
    } else {
      assert (w + rest)[0] == w[0];
      assert (w + rest)[1..] == w[1..] + rest;
      WordStartsOfWord(w[1..], rest, false);
    }
  }

  /** After a run of spaces the next character is at the start of a word. */
  lemma {:induction false} SpacesThen(gap: string, rest: string, atStart: bool)
    requires gap != [] && forall i :: 0 <= i < |gap| ==> gap[i] == ' '
    ensures WordStarts(gap + rest, atStart) == WordStarts(rest, true)
  {
    assert (gap + rest)[0] == ' ';
    assert (gap + rest)[1..] == gap[1..] + rest;
    if |gap| > 1 {
      SpacesThen(gap[1..], rest, true);
    } else {
      assert gap[1..] + rest == rest;
    }
  }

  /** Two words separated by a run of spaces start at their first letters. */
  lemma WordStartsOfTwoWords(first: string, gap: string, last: string)
    requires first != [] && forall i :: 0 <= i < |first| ==> first[i] != ' '
    requires gap != [] && forall i :: 0 <= i < |gap| ==> gap[i] == ' '
    requires last != [] && forall i :: 0 <= i < |last| ==> last[i] != ' '
    ensures WordStarts(first + gap + last, true) == [first[0], last[0]]
  {
    WordStartsOfWord(last, "", true);
    assert last + "" == last;
    SpacesThen(gap, last, false);
    assert (gap + last)[0] == ' ';
    WordStartsOfWord(first, gap + last, true);
    assert first + gap + last == first + (gap + last);
  }

  /**
   * Two words separated by one or more spaces give the upper-cased first
   * letter of each: "John Doe" gives "JD", and "ada  king" gives "AK" since
   * the empty piece between doubled spaces contributes nothing.
   */
  lemma InitialsOfTwoWords(first: string, gap: string, last: string)
    requires first != [] && forall i :: 0 <= i < |first| ==> first[i] != ' '
    requires gap != [] && forall i :: 0 <= i < |gap| ==> gap[i] == ' '
    requires last != [] && forall i :: 0 <= i < |last| ==> last[i] != ' '
    ensures GetInitials(first + gap + last) == [UpperChar(first[0]), UpperChar(last[0])]
  {
    InitialsAreWordStarts(first + gap + last);
    WordStartsOfTwoWords(first, gap, last);
  }

  // ----- Scrolling and link clicks ------------------------------------------

  /**
   * Whether the bar shows after a scroll event: it hides only while moving
   * down and past the first 50 pixels.
   */
  function VisibleAfterScroll(scrollY: int, lastScrollY: int): (visible: bool)
    ensures scrollY <= 50 ==> visible
    ensures scrollY <= lastScrollY ==> visible
    ensures !visible ==> scrollY > lastScrollY && scrollY > 50
    ensures scrollY > lastScrollY && scrollY > 50 ==> !visible
  {
    !(scrollY > lastScrollY && scrollY > 50)
  }

  /** The navbar's state: `selectedIndex`, `isVisible` and `lastScrollY`. */
  class NavbarState {
    var selectedIndex: int
    var isVisible: bool
    var lastScrollY: int

    constructor ()
      ensures selectedIndex == 0 && isVisible && lastScrollY == 0
    {
      selectedIndex, isVisible, lastScrollY := 0, true, 0;
    }

    /** `handleLinkClick`. */
    method HandleLinkClick(index: int)
      modifies this
      ensures selectedIndex == index
      ensures isVisible == old(isVisible) && lastScrollY == old(lastScrollY)
    {
      selectedIndex := index;
    }

    /** `handleScroll`, with `scrollY` the window's current scroll offset. */
    method HandleScroll(scrollY: int)
      modifies this
      ensures isVisible == VisibleAfterScroll(scrollY, old(lastScrollY))
      ensures lastScrollY == scrollY
      ensures selectedIndex == old(selectedIndex)
    {
      if scrollY > lastScrollY && scrollY > 50 {
        isVisible := false;
      } else {
        isVisible := true;
      }
      lastScrollY := scrollY;
    }
  }
}
