/** Host allow-list matching used by both navigation handlers of the main
    process. A hostname is allowed by a list when it equals an entry or is
    a subdomain of one (it ends with "." followed by the entry). */
module Hosts {

  /** `s.endsWith(suffix)` of JavaScript strings. */
  predicate EndsWith(s: string, suffix: string)
  {
    |suffix| <= |s| && s[|s| - |suffix|..] == suffix
  }

  /** The per-entry test: equal to the entry, or a dot-bounded subdomain of it. */
  predicate Matches(host: string, entry: string)
  {
    host == entry || EndsWith(host, "." + entry)
  }

  /** Reference definition of allow-list membership. */
  ghost predicate Allowed(host: string, entries: seq<string>)
  {
    exists i :: 0 <= i < |entries| && Matches(host, entries[i])
  }

  /** `entries.some(entry => matches(host, entry))`, scanning left to right. */
  function AnyMatches(host: string, entries: seq<string>): (r: bool)
    ensures r <==> Allowed(host, entries)
  {
    if entries == [] then false
    else if Matches(host, entries[0]) then true
    else
      var rest := AnyMatches(host, entries[1..]);
      assert forall i :: 1 <= i < |entries| ==> entries[i] == entries[1..][i - 1];
      rest
  }

  /** Entries accepted for a new window (window-open handler). */
  const WindowOpenAllowList: seq<string> := [
    "teams.microsoft.com",
    "teams.cloud.microsoft",
    "teams.events.data.microsoft.com",
    "teams.cdn.office.net",
    "teams.office.com",
    "teams.live.com",
    "cosmic.office.net",
    "login.microsoftonline.com",
    "login.live.com",
    "account.live.com",
    "graph.microsoft.com",
    "microsoft.com"
  ]

  /** Entries accepted for in-place navigation (will-navigate handler). */
  const NavigationAllowList: seq<string> := [
    "teams.microsoft.com",
    "teams.cloud.microsoft",
    "teams.events.data.microsoft.com",
    "teams.cdn.office.net",
    "teams.office.com",
    "teams.live.com",
    "cosmic.office.net",
    "login.microsoftonline.com",
    "login.live.com",
    "account.live.com",
    "graph.microsoft.com"
  ]

  /** Appending a suffix makes the result end with it. */
  lemma EndsWithAppend(x: string, suffix: string)
    ensures EndsWith(x + suffix, suffix)
  {
    assert (x + suffix)[|x|..] == suffix;
  }

  /** A string that ends with `suffix` is some prefix followed by `suffix`. */
  lemma EndsWithSplit(s: string, suffix: string)
    requires EndsWith(s, suffix)
    ensures s == s[..|s| - |suffix|] + suffix
  {
  }

  /** JavaScript's endsWith holds exactly when the string is some prefix
      followed by the suffix. */
  lemma EndsWithIff(s: string, suffix: string)
    ensures EndsWith(s, suffix) <==> exists p :: s == p + suffix
  {
    if EndsWith(s, suffix) {
      EndsWithSplit(s, suffix);
    }
    if exists p :: s == p + suffix {
      var p :| s == p + suffix;
      EndsWithAppend(p, suffix);
    }
  }

  /** The dot boundary matters: a host made of a label that does not end in
      "." glued onto an entry is not a match for that entry. */
  lemma {:induction false} NoMatchWithoutDot(y: string, entry: string)
    requires |y| > 0 && y[|y| - 1] != '.'
    ensures !Matches(y + entry, entry)
  {
    var h := y + entry;
    var k := |y| - 1;
    assert |h| - |"." + entry| == k;
    assert h[k..][0] == y[k] != '.';
    assert ("." + entry)[0] == '.';
  }

  /** A host shorter than an entry cannot match it. */
  lemma ShorterThanEntry(host: string, entry: string)
    requires |host| < |entry|
    ensures !Matches(host, entry)
  {
  }

  /** A character that differs `j` places from the end rules out a suffix. */
  lemma MismatchFromEnd(s: string, suffix: string, j: nat)
    requires j < |suffix| <= |s| && s[|s| - 1 - j] != suffix[|suffix| - 1 - j]
    ensures !EndsWith(s, suffix)
  {
    assert s[|s| - |suffix|..][|suffix| - 1 - j] == s[|s| - 1 - j];
  }

  /** Prefixing a host with any label and a dot keeps each match. */
  lemma {:induction false} MatchesExtend(host: string, entry: string, x: string)
    requires Matches(host, entry)
    ensures Matches(x + "." + host, entry)
  {
    if host == entry {
      assert x + "." + host == x + ("." + entry);
      EndsWithAppend(x, "." + entry);
    } else {
      var p := host[..|host| - |"." + entry|];
      EndsWithSplit(host, "." + entry);
      assert x + "." + host == (x + "." + p) + ("." + entry);
      EndsWithAppend(x + "." + p, "." + entry);
    }
  }

  /** Suffix closure: every subdomain of an allowed host is allowed. */
  lemma {:induction false} SuffixClosure(host: string, entries: seq<string>, x: string)
    requires Allowed(host, entries)
    ensures Allowed(x + "." + host, entries)
  {
    var i :| 0 <= i < |entries| && Matches(host, entries[i]);
    MatchesExtend(host, entries[i], x);
  }

  /** Allowing by a concatenation of lists is allowing by either part. */
  lemma {:induction false} AllowedConcat(host: string, a: seq<string>, b: seq<string>)
    ensures Allowed(host, a + b) <==> Allowed(host, a) || Allowed(host, b)
  {
    if Allowed(host, a + b) {
      var i :| 0 <= i < |a + b| && Matches(host, (a + b)[i]);
      if i < |a| {
        assert (a + b)[i] == a[i];
      } else {
        assert (a + b)[i] == b[i - |a|];
      }
    }
    if Allowed(host, a) {
      var i :| 0 <= i < |a| && Matches(host, a[i]);
      assert (a + b)[i] == a[i];
    }
    if Allowed(host, b) {
      var i :| 0 <= i < |b| && Matches(host, b[i]);
      assert (a + b)[|a| + i] == b[i];
    }
  }

  /** The window-open list is the navigation list plus the root domain. */
  lemma WindowOpenListExtendsNavigationList()
    ensures WindowOpenAllowList == NavigationAllowList + ["microsoft.com"]
    ensures "microsoft.com" !in NavigationAllowList
  {
  }

  /** A host is allowed for window-open exactly when it is allowed for
      navigation or is `microsoft.com` or one of its subdomains. */
  lemma WindowOpenAllowedIff(host: string)
    ensures Allowed(host, WindowOpenAllowList)
        <==> Allowed(host, NavigationAllowList) || Matches(host, "microsoft.com")
  {
    WindowOpenListExtendsNavigationList();
    AllowedConcat(host, NavigationAllowList, ["microsoft.com"]);
    assert Allowed(host, ["microsoft.com"]) <==> Matches(host, "microsoft.com") by {
      if Matches(host, "microsoft.com") {
        assert ["microsoft.com"][0] == "microsoft.com";
      }
    }
  }

  /** Every host allowed for in-place navigation is allowed for window-open. */
  lemma NavigationAllowedImpliesWindowOpenAllowed(host: string)
    requires Allowed(host, NavigationAllowList)
    ensures Allowed(host, WindowOpenAllowList)
  {
    WindowOpenAllowedIff(host);
  }
}
