/** The application shell: which paths hide the navigation bar, the language taken
    from storage at start-up and the document direction. */
module App {
  import opened Common
  import opened Strings

  /** `hideNavbarPaths` */
  const HiddenPrefixes: seq<string> :=
    ["/auth", "/verify-email", "/email-pending", "/room", "/setup", "/dashboard", "/pricing"]

  /** `prefixes.some(p => path.startsWith(p))` */
  function AnyPrefix(prefixes: seq<string>, path: string): (b: bool)
    ensures b <==> exists i :: 0 <= i < |prefixes| && StartsWith(path, prefixes[i])
    decreases |prefixes|
  {
    if prefixes == [] then false
    else StartsWith(path, prefixes[0]) || AnyPrefix(prefixes[1..], path)
  }

  function ShouldHideNavbar(path: string): bool {
    AnyPrefix(HiddenPrefixes, path)
  }

  /** The test is a plain prefix test: anything longer that starts with a listed
      path hides the bar too, "/roomy" and "/authx" included. */
  lemma ExtensionHides(i: nat, rest: string)
    requires i < |HiddenPrefixes|
    ensures ShouldHideNavbar(HiddenPrefixes[i] + rest)
  {
    var p := HiddenPrefixes[i];
    assert (p + rest)[..|p|] == p;
  }

  lemma RoomyHides()
    ensures ShouldHideNavbar("/room" + "y") && ShouldHideNavbar("/auth" + "x")
  {
    ExtensionHides(3, "y");
    ExtensionHides(0, "x");
  }

  /** Every listed path has at least five characters, so shorter paths, "/" and
      "/foo" among them, show the bar. */
  lemma ShortPathShows(path: string)
    requires |path| < 5
    ensures !ShouldHideNavbar(path)
  {
    forall i | 0 <= i < |HiddenPrefixes| ensures |HiddenPrefixes[i]| >= 5 {
      PrefixLength(i);
    }
  }

  lemma PrefixLength(i: nat)
    requires i < |HiddenPrefixes|
    ensures |HiddenPrefixes[i]| >= 5
  {
    assert HiddenPrefixes[i] in HiddenPrefixes;
  }

  /** The language at start-up: the stored value when it is one of the four codes,
      English otherwise, including when nothing is stored. */
  function AdoptStoredLang(stored: Option<string>): (l: Lang)
    ensures stored.Some? && ParseLang(stored.value).Some? ==> LangCode(l) == stored.value
    ensures (stored.None? || ParseLang(stored.value).None?) ==> l == En
  {
    if stored.Some? then ParseLang(stored.value).GetOr(En) else En
  }

  /** Accepting a stored code keeps it: every language survives a round trip
      through storage. */
  lemma StoredLangRoundTrip(l: Lang)
    ensures AdoptStoredLang(Some(LangCode(l))) == l
  {
    ParseLangCode(l);
  }

  /** `document.documentElement.dir`: right to left for Arabic only. */
  function Dir(l: Lang): (d: string)
    ensures d == "rtl" <==> l == Ar
    ensures d == "ltr" <==> l != Ar
  {
    if l == Ar then "rtl" else "ltr"
  }
}
