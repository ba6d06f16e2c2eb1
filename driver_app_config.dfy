/**
 * The driver app's start-up check of its API constants: the Maps API key
 * and the provider (Cloud project) ID are matched against two anchored
 * regular expressions, and the app shows an error text instead of its
 * content view while either is malformed.
 *
 * The regular expressions are modelled by a small matcher for anchored
 * patterns made of character classes with repetition bounds, which is
 * all the two expressions use; each is then shown equal to a direct
 * description of the strings it accepts.
 */
module DriverAppConfig {
  import opened Wire

  /* ---------------------------------------------------------------------- */
  /* Anchored patterns                                                       */

  /** A bracket expression: inclusive character ranges and single characters. */
  datatype CharClass = CharClass(ranges: seq<(char, char)>, singles: seq<char>)

  /** A character class repeated between `min` and `max` times. */
  datatype Atom = Atom(cls: CharClass, min: nat, max: nat)

  predicate InClass(cls: CharClass, c: char) {
    (exists i :: 0 <= i < |cls.ranges| && cls.ranges[i].0 <= c <= cls.ranges[i].1) || c in cls.singles
  }

  predicate AllInClass(cls: CharClass, s: string) {
    forall i :: 0 <= i < |s| ==> InClass(cls, s[i])
  }

  /**
   * Whether the whole of `s` (`^…$`) is matched by the atoms of `pattern`
   * in order, each taking a number of characters within its bounds.
   */
  predicate Matches(pattern: seq<Atom>, s: string)
    decreases |pattern|
  {
    if pattern == [] then s == []
    else
      exists n :: pattern[0].min <= n <= pattern[0].max && n <= |s| &&
        AllInClass(pattern[0].cls, s[..n]) && Matches(pattern[1..], s[n..])
  }

  /** One literal character. */
  function Literal(c: char): (atom: Atom)
    ensures atom.min == atom.max == 1
    ensures forall d :: InClass(atom.cls, d) <==> d == c
  {
    Atom(CharClass([], [c]), 1, 1)
  }

  /** An atom that takes exactly `n` characters. */
  lemma MatchesFixed(atom: Atom, rest: seq<Atom>, s: string)
    requires atom.min == atom.max
    ensures Matches([atom] + rest, s) <==>
      atom.min <= |s| && AllInClass(atom.cls, s[..atom.min]) && Matches(rest, s[atom.min..])
  {
    assert ([atom] + rest)[0] == atom && ([atom] + rest)[1..] == rest;
    if atom.min <= |s| && AllInClass(atom.cls, s[..atom.min]) && Matches(rest, s[atom.min..]) {
      var n := atom.min;
      assert atom.min <= n <= atom.max && n <= |s| && AllInClass(atom.cls, s[..n]) && Matches(rest, s[n..]);
    }
  }

  /* ---------------------------------------------------------------------- */
  /* The two expressions                                                     */

  const Digits := ('0', '9')
  const Upper := ('A', 'Z')
  const Lower := ('a', 'z')

  /** `[0-9A-Za-z-_]`: letters, digits, hyphen and underscore. */
  const KeyChar := CharClass([Digits, Upper, Lower], ['-', '_'])

  /** `^AIza[0-9A-Za-z-_]{35}$` */
  const MapsKeyPattern := [Literal('A'), Literal('I'), Literal('z'), Literal('a'), Atom(KeyChar, 35, 35)]

  /** `^[a-z][a-z0-9-]{4,28}[a-z0-9]$` */
  const ProviderIDPattern := [
    Atom(CharClass([Lower], []), 1, 1),
    Atom(CharClass([Lower, Digits], ['-']), 4, 28),
    Atom(CharClass([Lower, Digits], []), 1, 1)]

  predicate IsLowerOrDigit(c: char) {
    'a' <= c <= 'z' || '0' <= c <= '9'
  }

  predicate IsKeyChar(c: char) {
    '0' <= c <= '9' || 'A' <= c <= 'Z' || 'a' <= c <= 'z' || c == '-' || c == '_'
  }

  /** A Maps key: 39 characters, "AIza" then letters, digits, hyphens and underscores. */
  predicate IsWellFormedMapsKey(key: string) {
    |key| == 39 && key[..4] == "AIza" && forall i :: 4 <= i < 39 ==> IsKeyChar(key[i])
  }

  /**
   * A provider ID: 6 to 30 characters of lower-case letters, digits and
   * hyphens, starting with a letter and not ending with a hyphen.
   */
  predicate IsWellFormedProviderID(id: string) {
    6 <= |id| <= 30 && 'a' <= id[0] <= 'z' && IsLowerOrDigit(id[|id| - 1]) &&
    forall i :: 1 <= i < |id| - 1 ==> IsLowerOrDigit(id[i]) || id[i] == '-'
  }

  lemma KeyCharClass(c: char)
    ensures InClass(KeyChar, c) <==> IsKeyChar(c)
  {
    if IsKeyChar(c) && c != '-' && c != '_' {
      if '0' <= c <= '9' {
        assert KeyChar.ranges[0].0 <= c <= KeyChar.ranges[0].1;
      } else if 'A' <= c <= 'Z' {
        assert KeyChar.ranges[1].0 <= c <= KeyChar.ranges[1].1;
      } else {
        assert KeyChar.ranges[2].0 <= c <= KeyChar.ranges[2].1;
      }
    }
  }

  /** A literal takes exactly its own character. */
  lemma MatchesLiteral(c: char, rest: seq<Atom>, s: string)
    ensures Matches([Literal(c)] + rest, s) <==> |s| >= 1 && s[0] == c && Matches(rest, s[1..])
  {
    MatchesFixed(Literal(c), rest, s);
    if |s| >= 1 {
      assert s[..1] == [s[0]];
      assert AllInClass(Literal(c).cls, s[..1]) <==> s[0] == c by {
        assert s[..1][0] == s[0];
      }
    }
  }

  /** A final atom of fixed width takes the whole rest of the string. */
  lemma MatchesLast(atom: Atom, s: string)
    requires atom.min == atom.max
    ensures Matches([atom], s) <==> |s| == atom.min && AllInClass(atom.cls, s)
  {
    MatchesFixed(atom, [], s);
    assert [atom] + [] == [atom];
    if |s| >= atom.min {
      assert Matches([], s[atom.min..]) <==> |s| == atom.min;
      if |s| == atom.min {
        assert s[..atom.min] == s;
      }
    }
  }

  /** The key expression accepts exactly the well-formed keys. */
  lemma {:induction false} MapsKeyPatternAccepts(key: string)
    ensures Matches(MapsKeyPattern, key) <==> IsWellFormedMapsKey(key)
  {
    var last := [Atom(KeyChar, 35, 35)];
    assert MapsKeyPattern == [Literal('A')] + ([Literal('I')] + ([Literal('z')] + ([Literal('a')] + last)));
    MatchesLiteral('A', [Literal('I')] + ([Literal('z')] + ([Literal('a')] + last)), key);
    if |key| >= 4 {
      MatchesLiteral('I', [Literal('z')] + ([Literal('a')] + last), key[1..]);
      MatchesLiteral('z', [Literal('a')] + last, key[2..]);
      MatchesLiteral('a', last, key[3..]);
      assert key[1..][1..] == key[2..] && key[2..][1..] == key[3..] && key[3..][1..] == key[4..];
      var tail := key[4..];
      MatchesLast(last[0], tail);
      assert key[..4] == "AIza" <==> key[0] == 'A' && key[1] == 'I' && key[2] == 'z' && key[3] == 'a' by {
        if key[0] == 'A' && key[1] == 'I' && key[2] == 'z' && key[3] == 'a' {
          assert key[..4] == [key[0], key[1], key[2], key[3]];
        }
      }
      assert AllInClass(KeyChar, tail) <==> forall i :: 4 <= i < |key| ==> IsKeyChar(key[i]) by {
        forall i | 0 <= i < |tail| ensures InClass(KeyChar, tail[i]) <==> IsKeyChar(key[i + 4]) {
          KeyCharClass(tail[i]);
        }
      }
    } else {
      if |key| >= 1 {
        MatchesLiteral('I', [Literal('z')] + ([Literal('a')] + last), key[1..]);
        if |key| >= 2 {
          MatchesLiteral('z', [Literal('a')] + last, key[2..]);
          assert key[1..][1..] == key[2..];
          if |key| >= 3 {
            MatchesLiteral('a', last, key[3..]);
            assert key[2..][1..] == key[3..];
          }
        }
      }
    }
  }

  const IDFirstChar := CharClass([Lower], [])
  const IDMiddleChar := CharClass([Lower, Digits], ['-'])
  const IDLastChar := CharClass([Lower, Digits], [])

  lemma IDCharClasses(c: char)
    ensures InClass(IDFirstChar, c) <==> 'a' <= c <= 'z'
    ensures InClass(IDMiddleChar, c) <==> IsLowerOrDigit(c) || c == '-'
    ensures InClass(IDLastChar, c) <==> IsLowerOrDigit(c)
  {
    if 'a' <= c <= 'z' {
      assert IDFirstChar.ranges[0].0 <= c <= IDFirstChar.ranges[0].1;
      assert IDMiddleChar.ranges[0].0 <= c <= IDMiddleChar.ranges[0].1;
      assert IDLastChar.ranges[0].0 <= c <= IDLastChar.ranges[0].1;
    }
    if '0' <= c <= '9' {
      assert IDMiddleChar.ranges[1].0 <= c <= IDMiddleChar.ranges[1].1;
      assert IDLastChar.ranges[1].0 <= c <= IDLastChar.ranges[1].1;
    }
  }

  /**
   * A bounded atom followed by one final character: the final atom takes
   * the last character, so the bounded one takes everything before it.
   */
  lemma {:induction false} MatchesBoundedThenOne(mid: Atom, last: Atom, t: string)
    requires last.min == last.max == 1
    ensures Matches([mid, last], t) <==>
      mid.min + 1 <= |t| <= mid.max + 1 && AllInClass(mid.cls, t[..|t| - 1]) && InClass(last.cls, t[|t| - 1])
  {
    assert [mid, last][0] == mid && [mid, last][1..] == [last];
    forall n | 0 <= n <= |t|
      ensures Matches([last], t[n..]) <==> n == |t| - 1 && InClass(last.cls, t[|t| - 1])
    {
      MatchesLast(last, t[n..]);
      if n == |t| - 1 {
        assert t[n..][0] == t[|t| - 1];
      }
    }
    if mid.min + 1 <= |t| <= mid.max + 1 && AllInClass(mid.cls, t[..|t| - 1]) && InClass(last.cls, t[|t| - 1]) {
      var n := |t| - 1;
      assert mid.min <= n <= mid.max && n <= |t| && AllInClass(mid.cls, t[..n]) && Matches([last], t[n..]);
    }
  }

  /** The provider-ID expression accepts exactly the well-formed IDs. */
  lemma {:induction false} ProviderIDPatternAccepts(id: string)
    ensures Matches(ProviderIDPattern, id) <==> IsWellFormedProviderID(id)
  {
    var p := ProviderIDPattern;
    assert p == [p[0]] + [p[1], p[2]];
    MatchesFixed(p[0], [p[1], p[2]], id);
    if |id| >= 1 {
      assert AllInClass(IDFirstChar, id[..1]) <==> InClass(IDFirstChar, id[0]) by {
        assert id[..1] == [id[0]];
      }
      IDCharClasses(id[0]);
      var t := id[1..];
      MatchesBoundedThenOne(p[1], p[2], t);
      if |t| >= 1 {
        IDCharClasses(t[|t| - 1]);
        assert t[|t| - 1] == id[|id| - 1];
        var middle := t[..|t| - 1];
        assert AllInClass(IDMiddleChar, middle) <==> forall i :: 1 <= i < |id| - 1 ==> IsLowerOrDigit(id[i]) || id[i] == '-' by {
          forall i | 0 <= i < |middle| ensures InClass(IDMiddleChar, middle[i]) <==> IsLowerOrDigit(middle[i]) || middle[i] == '-' {
            IDCharClasses(middle[i]);
          }
          assert forall i :: 1 <= i < |id| - 1 ==> id[i] == middle[i - 1];
        }
      }
    }
  }

  /* ---------------------------------------------------------------------- */
  /* The start-up check                                                      */

  const MapsKeyErrorMessage :=
    "The Maps API Key has not been correctly configured. Please set your Maps API key in APIConstants.swift."
  const ProviderIDErrorMessage :=
    "The Provider ID has not been correctly configured. Please set your Provider ID in APIConstants.swift."

  /**
   * `apiConstantsErrorMessage`: the key is checked first, then the
   * provider ID; no message when both match.
   */
  function ApiConstantsErrorMessage(mapsAPIKey: string, providerID: string): (message: Option<string>)
    ensures !IsWellFormedMapsKey(mapsAPIKey) ==> message == Some(MapsKeyErrorMessage)
    ensures IsWellFormedMapsKey(mapsAPIKey) && !IsWellFormedProviderID(providerID) ==> message == Some(ProviderIDErrorMessage)
    ensures message.None? <==> IsWellFormedMapsKey(mapsAPIKey) && IsWellFormedProviderID(providerID)
  {
    MapsKeyPatternAccepts(mapsAPIKey);
    ProviderIDPatternAccepts(providerID);
    if !Matches(MapsKeyPattern, mapsAPIKey) then Some(MapsKeyErrorMessage)
    else if !Matches(ProviderIDPattern, providerID) then Some(ProviderIDErrorMessage)
    else None
  }

  /** What the app's window shows. */
  datatype Screen = ErrorText(message: string) | ContentView

  function AppScreen(mapsAPIKey: string, providerID: string): (screen: Screen)
    ensures screen == ContentView <==> IsWellFormedMapsKey(mapsAPIKey) && IsWellFormedProviderID(providerID)
    ensures screen.ErrorText? ==> Some(screen.message) == ApiConstantsErrorMessage(mapsAPIKey, providerID)
  {
    match ApiConstantsErrorMessage(mapsAPIKey, providerID)
    case Some(message) => ErrorText(message)
    case None => ContentView
  }

  const ShippedMapsAPIKey := "YOUR_API_KEY"
  const ShippedProviderID := "YOUR_PROVIDER_ID"

  /**
   * With the constants as shipped, both checks fail and the app shows
   * the Maps key message.
   */
  lemma ShippedConstantsShowKeyMessage()
    ensures !IsWellFormedMapsKey(ShippedMapsAPIKey) && !IsWellFormedProviderID(ShippedProviderID)
    ensures AppScreen(ShippedMapsAPIKey, ShippedProviderID) == ErrorText(MapsKeyErrorMessage)
  {
  }

  /** A key and an ID of the documented shapes open the content view. */
  lemma WellFormedConstantsShowContent()
    ensures AppScreen("AIza" + seq(35, _ => 'x'), "my-fleet-1") == ContentView
  {
    var key := "AIza" + seq(35, _ => 'x');
    assert forall i :: 4 <= i < 39 ==> key[i] == 'x';
  }
}
