/**
 * The app-level navigator of main.py (`RootApp`): the screen manager's
 * current screen and registered screen names, the one remembered
 * `_previous_screen` (a depth-1 history, not a stack), the alias table
 * from short menu keys to screen base names, and the derivation of a
 * screen's class name from its base name.
 */
module Navigation {
  import opened Wrappers
  import Text

  const Home: string := "main"

  /** The menu's short keys and the screen base names they stand for. */
  const AliasMap: map<string, string> := map[
    "profile" := "profile",
    "history" := "purchase_history",
    "loyalty" := "loyalty_program",
    "news" := "news",
    "our_menu" := "our_menu",
    "promo" := "promo_input",
    "referral" := "referral",
    "addresses" := "our_addresses",
    "faq" := "faq",
    "about" := "about_company",
    "work" := "work_on_us",
    "write_us" := "write_us",
    "contacts" := "contacts",
    "privacy_policy" := "agreement"
  ]

  /** `alias_map.get(screen_name, screen_name)`. */
  function ResolveAlias(key: string): string {
    if key in AliasMap then AliasMap[key] else key
  }

  /** Every canonical name is its own alias, so resolving twice changes nothing. */
  lemma ResolveAliasIdempotent(key: string)
    ensures ResolveAlias(ResolveAlias(key)) == ResolveAlias(key)
    ensures key in AliasMap ==> ResolveAlias(key) == AliasMap[key]
    ensures key !in AliasMap ==> ResolveAlias(key) == key
  {
  }

  /** Python's `s.split(sep)`: always at least one part, no part holds `sep`. */
  function SplitOn(s: string, sep: char): (parts: seq<string>)
    ensures |parts| >= 1
    ensures forall i :: 0 <= i < |parts| ==> sep !in parts[i]
  {
    if s == [] then [""]
    else
      var rest := SplitOn(s[1..], sep);
      if s[0] == sep then [""] + rest
      else [[s[0]] + rest[0]] + rest[1..]
  }

  /** Python's `sep.join(parts)`. */
  function JoinWith(parts: seq<string>, sep: char): string
    requires |parts| >= 1
  {
    if |parts| == 1 then parts[0] else parts[0] + [sep] + JoinWith(parts[1..], sep)
  }

  /** Splitting and joining again gives back the original text. */
  lemma {:induction false} JoinSplit(s: string, sep: char)
    ensures JoinWith(SplitOn(s, sep), sep) == s
  {
    if s != [] {
      var rest := SplitOn(s[1..], sep);
      JoinSplit(s[1..], sep);
      if s[0] != sep {
        var parts := SplitOn(s, sep);
        assert parts[1..] == rest[1..];
        if |rest| > 1 {
          assert JoinWith(rest, sep) == rest[0] + [sep] + JoinWith(rest[1..], sep);
        }
      }
    }
  }

  /** Python's `str.capitalize()`: first character upper case, the rest lower case. */
  function Capitalize(word: string): (r: string)
    ensures |r| == |word|
  {
    if word == [] then [] else [Text.Upper(word[0])] + Text.LowerAll(word[1..])
  }

  function ConcatCapitalized(parts: seq<string>): string {
    if parts == [] then [] else Capitalize(parts[0]) + ConcatCapitalized(parts[1..])
  }

  /** `''.join(part.capitalize() for part in base_name.split('_')) + 'Screen'`. */
  function ClassName(baseName: string): string {
    ConcatCapitalized(SplitOn(baseName, '_')) + "Screen"
  }

  lemma CaseMapKeepsUnderscore(c: char)
    ensures c != '_' ==> Text.Upper(c) != '_' && Text.Lower(c) != '_'
  {
  }

  lemma {:induction false} ConcatHasNoUnderscore(parts: seq<string>)
    requires forall i :: 0 <= i < |parts| ==> '_' !in parts[i]
    ensures '_' !in ConcatCapitalized(parts)
  {
    if parts != [] {
      ConcatHasNoUnderscore(parts[1..]);
      var w := parts[0];
      if w != [] {
        CaseMapKeepsUnderscore(w[0]);
        forall i | 0 <= i < |w| - 1 ensures Text.LowerAll(w[1..])[i] != '_' {
          CaseMapKeepsUnderscore(w[1..][i]);
        }
      }
    }
  }

  /** A derived class name ends in "Screen" and holds no underscore before it. */
  lemma ClassNameShape(baseName: string)
    ensures var name := ClassName(baseName);
            |name| >= 6 && name[|name| - 6..] == "Screen" && '_' !in name[..|name| - 6]
  {
    var prefix := ConcatCapitalized(SplitOn(baseName, '_'));
    ConcatHasNoUnderscore(SplitOn(baseName, '_'));
    assert ClassName(baseName)[..|ClassName(baseName)| - 6] == prefix;
  }

  lemma CapitalizeIgnoresCase(word: string)
    ensures Capitalize(Text.LowerAll(word)) == Capitalize(word)
  {
    if word != [] {
      Text.LowerIdempotent(word[0]);
      assert Text.LowerAll(word)[1..] == Text.LowerAll(word[1..]);
      Text.LowerAllIdempotent(word[1..]);
    }
  }

  lemma {:induction false} SplitLowerAll(s: string)
    ensures |SplitOn(Text.LowerAll(s), '_')| == |SplitOn(s, '_')|
    ensures forall i :: 0 <= i < |SplitOn(s, '_')| ==>
              SplitOn(Text.LowerAll(s), '_')[i] == Text.LowerAll(SplitOn(s, '_')[i])
  {
    if s != [] {
      assert Text.LowerAll(s)[1..] == Text.LowerAll(s[1..]);
      SplitLowerAll(s[1..]);
      var rest := SplitOn(s[1..], '_');
      if s[0] != '_' {
        assert Text.LowerAll([s[0]] + rest[0]) == [Text.Lower(s[0])] + Text.LowerAll(rest[0]);
      }
    }
  }

  lemma {:induction false} ConcatIgnoresCase(parts: seq<string>, lowered: seq<string>)
    requires |lowered| == |parts|
    requires forall i :: 0 <= i < |parts| ==> lowered[i] == Text.LowerAll(parts[i])
    ensures ConcatCapitalized(lowered) == ConcatCapitalized(parts)
  {
    if parts != [] {
      CapitalizeIgnoresCase(parts[0]);
      ConcatIgnoresCase(parts[1..], lowered[1..]);
    }
  }

  /**
   * `capitalize` rewrites the case of every letter, so the case in which a
   * screen key is written does not change the class that is looked up.
   */
  lemma ClassNameIgnoresCase(baseName: string)
    ensures ClassName(Text.LowerAll(baseName)) == ClassName(baseName)
  {
    SplitLowerAll(baseName);
    ConcatIgnoresCase(SplitOn(baseName, '_'), SplitOn(Text.LowerAll(baseName), '_'));
  }

  lemma {:induction false} SplitWord(w: string, sep: char)
    requires sep !in w
    ensures SplitOn(w, sep) == [w]
  {
    if w != [] {
      SplitWord(w[1..], sep);
      assert [w[0]] + w[1..] == w;
    }
  }

  lemma {:induction false} SplitFirst(a: string, b: string, sep: char)
    requires sep !in a
    ensures SplitOn(a + [sep] + b, sep) == [a] + SplitOn(b, sep)
  {
    if a == [] {
      assert (a + [sep] + b)[1..] == b;
    } else {
      assert (a + [sep] + b)[1..] == a[1..] + [sep] + b;
      SplitFirst(a[1..], b, sep);
      assert [a[0]] + a[1..] == a;
    }
  }

  lemma CapitalizeWords(first: string, second: string)
    requires first == "purchase" && second == "history"
    ensures Capitalize(first) + Capitalize(second) + "Screen" == "PurchaseHistoryScreen"
  {
    assert Capitalize(first) == "Purchase";
    assert Capitalize(second) == "History";
  }

  /** A two-part base name gives the two capitalized parts followed by "Screen". */
  lemma TwoWordClassName(first: string, second: string)
    requires '_' !in first && '_' !in second
    ensures ClassName(first + ['_'] + second) == Capitalize(first) + Capitalize(second) + "Screen"
  {
    SplitFirst(first, second, '_');
    SplitWord(second, '_');
    var parts := SplitOn(first + ['_'] + second, '_');
    assert parts == [first, second];
    assert ConcatCapitalized(parts) == Capitalize(first) + ConcatCapitalized([second]);
    assert ConcatCapitalized([second]) == Capitalize(second);
  }

  /** The menu key "history" opens the screen class PurchaseHistoryScreen. */
  lemma PurchaseHistoryClassName(key: string, base: string)
    requires key == "history" && base == ResolveAlias(key)
    ensures base == "purchase_history"
    ensures ClassName(base) == "PurchaseHistoryScreen"
  {
    var first, second := "purchase", "history";
    assert base == first + ['_'] + second;
    TwoWordClassName(first, second);
    CapitalizeWords(first, second);
  }

  /** Python truthiness of the remembered previous screen: set and not empty. */
  predicate IsSet(previous: Option<string>) {
    previous.Some? && previous.value != ""
  }

  /** The navigator's state as a value: what the methods below are specified against. */
  datatype NavState = NavState(current: string, screens: seq<string>, previous: Option<string>)

  predicate Distinct(screens: seq<string>) {
    forall i, j :: 0 <= i < j < |screens| ==> screens[i] != screens[j]
  }

  /** What `open_screen_by_name(key)` leaves behind. */
  function Opened(s: NavState, key: string): NavState {
    NavState(
      key,
      if key in s.screens then s.screens else s.screens + [key],
      if s.current != "" && s.current != key then Some(s.current) else s.previous)
  }

  /** What `go_back()` leaves behind. */
  function WentBack(s: NavState): NavState {
    if IsSet(s.previous) && s.previous.value != s.current && s.previous.value in s.screens
    then s.(current := s.previous.value)
    else if Home in s.screens then s.(current := Home)
    else s
  }

  /**
   * After opening `key` it is current and registered exactly once; a screen
   * already registered is reused, a new one is appended after the others.
   */
  lemma {:induction false} OpenedRegistersOnce(s: NavState, key: string)
    requires Distinct(s.screens)
    ensures Opened(s, key).current == key
    ensures Distinct(Opened(s, key).screens)
    ensures key in s.screens ==> Opened(s, key).screens == s.screens
    ensures key !in s.screens ==> Opened(s, key).screens == s.screens + [key]
  {
  }

  /** The previous screen is overwritten only by a move to a different screen. */
  lemma OpenedRecordsPrevious(s: NavState, key: string)
    ensures key == s.current || s.current == "" ==> Opened(s, key).previous == s.previous
    ensures s.current != "" && key != s.current ==> Opened(s, key).previous == Some(s.current)
  {
  }

  /** Opening the same key twice in a row is the same as opening it once. */
  lemma OpenedIdempotent(s: NavState, key: string)
    ensures Opened(Opened(s, key), key) == Opened(s, key)
  {
  }

  /**
   * `go_back` never touches the remembered screen or the registrations; it
   * leaves the current screen only for a registered screen, and it moves to
   * the remembered one exactly when that one is usable.
   */
  lemma WentBackKeepsHistory(s: NavState)
    ensures WentBack(s).previous == s.previous && WentBack(s).screens == s.screens
    ensures WentBack(s).current == s.current || WentBack(s).current in s.screens
    ensures WentBack(s).current == s.current || WentBack(s).current == Home ||
            (IsSet(s.previous) && WentBack(s).current == s.previous.value)
    ensures IsSet(s.previous) && s.previous.value != s.current && s.previous.value in s.screens <==>
            WentBack(s).current != s.current && IsSet(s.previous) && WentBack(s).current == s.previous.value
    ensures Home !in s.screens && !(IsSet(s.previous) && s.previous.value in s.screens) ==>
            WentBack(s) == s
  {
  }

  /** Navigating from A to a different B and going back lands on A again. */
  lemma BackAfterOpenReturns(s: NavState, b: string)
    requires s.current != "" && s.current != b && s.current in s.screens
    ensures WentBack(Opened(s, b)).current == s.current
  {
  }

  /**
   * Going back twice does not bounce between two screens: the second call
   * finds previous equal to current and falls back to the home screen.
   */
  lemma BackTwiceFallsHome(s: NavState, b: string)
    requires s.current != "" && s.current != b && s.current in s.screens
    requires Home in Opened(s, b).screens
    ensures WentBack(WentBack(Opened(s, b))).current == Home
  {
  }

  /** `RootApp` with its screen manager. */
  class Navigator {
    /** `sm.current`; the empty string when no screen is current. */
    var current: string
    /** `sm.screen_names`, in the order the screens were added. */
    var screens: seq<string>
    /** `self._previous_screen`; `None` until the first move. */
    var previous: Option<string>

    ghost predicate Valid()
      reads this
    {
      Distinct(screens) && (current != "" ==> current in screens)
    }

    function State(): NavState
      reads this
    {
      NavState(current, screens, previous)
    }

    /** The root screen manager as built from main.kv: its first screen is current. */
    constructor (initial: seq<string>)
      requires Distinct(initial)
      ensures Valid()
      ensures screens == initial && previous == None
      ensures current == if initial == [] then "" else initial[0]
    {
      screens := initial;
      current := if initial == [] then "" else initial[0];
      previous := None;
    }

    /** Assigning `sm.current`; Kivy refuses a name that is not registered. */
    method SwitchTo(name: string) returns (ok: bool)
      requires Valid()
      modifies this`current
      ensures Valid()
      ensures ok == (name in screens)
      ensures current == if ok then name else old(current)
    {
      ok := name in screens;
      if ok {
        current := name;
      }
    }

    /**
     * `open_screen_by_name`: remember the screen being left, reuse a
     * registered screen or register a new one, and switch to it. Returns the
     * class name a new screen is built from, or None when one was reused.
     */
    method OpenScreenByName(key: string) returns (created: Option<string>)
      requires Valid()
      modifies this
      ensures Valid()
      ensures State() == Opened(old(State()), key)
      ensures created == if key in old(screens) then None else Some(ClassName(ResolveAlias(key)))
    {
      if current != "" && current != key {
        previous := Some(current);
      }
      if key in screens {
        current := key;
        return None;
      }
      var baseName := ResolveAlias(key);
      var className := ClassName(baseName);
      screens := screens + [key];
      if current != "" && current != key {
        previous := Some(current);
      }
      current := key;
      return Some(className);
    }

    /**
     * `go_back`: the remembered screen if it is set, differs from the
     * current one and is registered; otherwise the home screen if it is
     * registered; otherwise stay.
     */
    method GoBack()
      requires Valid()
      modifies this`current
      ensures Valid()
      ensures State() == WentBack(old(State()))
    {
      if IsSet(previous) {
        if previous.value != current && previous.value in screens {
          current := previous.value;
          return;
        }
      }
      if Home in screens {
        current := Home;
      }
    }
  }
}
