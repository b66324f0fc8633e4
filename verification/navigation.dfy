/** The two navigation handlers of the main window. Each receives the
    target URL together with the hostname the URL constructor extracted
    from it (`None` when the constructor threw); the calls the handlers
    make into the shell and the event are returned as effect values. */
module Navigation {
  import opened Wrappers
  import opened Hosts

  /** What the window-open handler returns to the framework. */
  datatype WindowOpenAction = Allow | Deny

  /** Side effects a handler performs. */
  datatype Effect =
    | OpenExternal(url: string)   // shell.openExternal(url)
    | PreventDefault              // event.preventDefault()

  datatype WindowOpenResponse = WindowOpenResponse(action: WindowOpenAction, effects: seq<Effect>)

  /** The URL constructor threw; the handler propagates the exception. */
  datatype HandlerError = InvalidUrl

  /** The window-open handler: an allowed host opens in the app, any other
      URL is handed to the external browser and the in-app window is denied. */
  function OnWindowOpen(url: string, hostname: Option<string>): (r: Result<WindowOpenResponse, HandlerError>)
    ensures r.Err? <==> hostname.None?
    ensures hostname.Some? && Allowed(hostname.value, WindowOpenAllowList) ==>
              r == Ok(WindowOpenResponse(Allow, []))
    ensures hostname.Some? && !Allowed(hostname.value, WindowOpenAllowList) ==>
              r == Ok(WindowOpenResponse(Deny, [OpenExternal(url)]))
  {
    match hostname
    case None => Err(InvalidUrl)
    case Some(host) =>
      if AnyMatches(host, WindowOpenAllowList) then Ok(WindowOpenResponse(Allow, []))
      else Ok(WindowOpenResponse(Deny, [OpenExternal(url)]))
  }

  /** The will-navigate handler: an allowed host navigates in place with no
      effect; any other URL is cancelled and opened externally. */
  function OnWillNavigate(url: string, hostname: Option<string>): (r: Result<seq<Effect>, HandlerError>)
    ensures r.Err? <==> hostname.None?
    ensures hostname.Some? && Allowed(hostname.value, NavigationAllowList) ==> r == Ok([])
    ensures hostname.Some? && !Allowed(hostname.value, NavigationAllowList) ==>
              r == Ok([PreventDefault, OpenExternal(url)])
  {
    match hostname
    case None => Err(InvalidUrl)
    case Some(host) =>
      if AnyMatches(host, NavigationAllowList) then Ok([])
      else Ok([PreventDefault, OpenExternal(url)])
  }

  /** Number of external-open effects in a list. */
  function CountOpenExternal(effects: seq<Effect>): nat
  {
    if effects == [] then 0
    else (if effects[0].OpenExternal? then 1 else 0) + CountOpenExternal(effects[1..])
  }

  /** Window-open opens the URL externally exactly once when it denies and
      never when it allows. */
  lemma WindowOpenExternalCount(url: string, host: string)
    ensures var r := OnWindowOpen(url, Some(host)).value;
      && (r.action == Allow ==> CountOpenExternal(r.effects) == 0)
      && (r.action == Deny ==> CountOpenExternal(r.effects) == 1
                               && forall e :: e in r.effects ==> e == OpenExternal(url))
  {
  }

  /** A navigation the will-navigate handler lets through is, as a new
      window, also let through by the window-open handler. */
  lemma NavigationPermitsImplyWindowOpenPermits(url: string, host: string)
    requires OnWillNavigate(url, Some(host)) == Ok([])
    ensures OnWindowOpen(url, Some(host)) == Ok(WindowOpenResponse(Allow, []))
  {
    NavigationAllowedImpliesWindowOpenAllowed(host);
  }

  /** The handlers disagree exactly on the root domain and its subdomains
      that no navigation entry covers. */
  lemma HandlersDisagreeIff(url: string, host: string)
    ensures (OnWindowOpen(url, Some(host)).value.action == Allow && OnWillNavigate(url, Some(host)) != Ok([]))
        <==> (Matches(host, "microsoft.com") && !Allowed(host, NavigationAllowList))
  {
    WindowOpenAllowedIff(host);
  }

  /** A malformed URL is not failed closed: the handler throws before
      opening anything externally or cancelling the navigation. */
  lemma InvalidUrlNotFailedClosed(url: string)
    ensures OnWindowOpen(url, None) == Err(InvalidUrl)
    ensures OnWillNavigate(url, None) == Err(InvalidUrl)
  {
  }

  /** Concrete hosts: the Teams host is allowed by both handlers. */
  lemma TeamsHostAllowed(url: string)
    ensures OnWindowOpen(url, Some("teams.microsoft.com")) == Ok(WindowOpenResponse(Allow, []))
    ensures OnWillNavigate(url, Some("teams.microsoft.com")) == Ok([])
    ensures OnWillNavigate(url, Some("login.microsoftonline.com")) == Ok([])
  {
    assert Matches("teams.microsoft.com", WindowOpenAllowList[0]);
    assert Matches("teams.microsoft.com", NavigationAllowList[0]);
    assert Matches("login.microsoftonline.com", NavigationAllowList[7]);
  }

  /** No navigation entry covers the root domain. */
  lemma RootDomainNotNavigable()
    ensures !Allowed("microsoft.com", NavigationAllowList)
  {
    var nav := NavigationAllowList;
    forall i | 0 <= i < |nav|
      ensures !Matches("microsoft.com", nav[i])
    {
      ShorterThanEntry("microsoft.com", nav[i]);
    }
  }

  /** The look-alike host `evilteams.microsoft.com` misses navigation entry `i`. */
  lemma LookAlikeMissesEntry(i: nat)
    requires i < |NavigationAllowList|
    ensures !Matches("evilteams.microsoft.com", NavigationAllowList[i])
  {
    var h := "evilteams.microsoft.com";
    var e := NavigationAllowList[i];
    if i == 0 {
      assert "evil" + "teams.microsoft.com" == h;
      NoMatchWithoutDot("evil", e);
    } else if i == 1 {
      MismatchFromEnd(h, "." + e, 0);
    } else if i == 2 {
      ShorterThanEntry(h, e);
    } else if i == 3 {
      MismatchFromEnd(h, "." + e, 0);
    } else if i == 4 {
      MismatchFromEnd(h, "." + e, 4);
    } else if i == 5 {
      MismatchFromEnd(h, "." + e, 4);
    } else if i == 6 {
      MismatchFromEnd(h, "." + e, 0);
    } else if i == 7 {
      ShorterThanEntry(h, e);
    } else if i == 8 {
      MismatchFromEnd(h, "." + e, 4);
    } else if i == 9 {
      MismatchFromEnd(h, "." + e, 4);
    } else {
      MismatchFromEnd(h, "." + e, 14);
    }
  }

  /** No navigation entry covers a look-alike of the Teams host. */
  lemma LookAlikeNotNavigable()
    ensures !Allowed("evilteams.microsoft.com", NavigationAllowList)
  {
    forall i | 0 <= i < |NavigationAllowList|
      ensures !Matches("evilteams.microsoft.com", NavigationAllowList[i])
    {
      LookAlikeMissesEntry(i);
    }
  }

  /** Concrete hosts: the root domain and a look-alike of the Teams host
      open as new windows (through the `microsoft.com` entry) but may not
      replace the page in place. */
  lemma RootDomainOnlyForWindowOpen(url: string)
    ensures OnWindowOpen(url, Some("microsoft.com")) == Ok(WindowOpenResponse(Allow, []))
    ensures OnWillNavigate(url, Some("microsoft.com")) == Ok([PreventDefault, OpenExternal(url)])
    ensures OnWindowOpen(url, Some("evilteams.microsoft.com")) == Ok(WindowOpenResponse(Allow, []))
    ensures OnWillNavigate(url, Some("evilteams.microsoft.com")) == Ok([PreventDefault, OpenExternal(url)])
  {
    RootDomainNotNavigable();
    LookAlikeNotNavigable();
    assert Matches("microsoft.com", WindowOpenAllowList[11]);
    assert "evilteams" + ".microsoft.com" == "evilteams.microsoft.com";
    EndsWithAppend("evilteams", ".microsoft.com");
    assert Matches("evilteams.microsoft.com", WindowOpenAllowList[11]);
  }
}
