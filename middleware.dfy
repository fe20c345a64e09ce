/** The login guard run in front of every page request: which paths it
    applies to, and where it sends a request with or without a session. */
module Middleware {
  import opened Js

  datatype Decision = PassThrough | Redirect(location: string)

  const LoginPath: string := "/login"

  /** The guard: visitors without a session go to the login page, signed-in
      users on the login page go to the start page, everything else proceeds. */
  function Decide(hasSession: bool, path: string): (d: Decision)
    ensures d == Redirect(LoginPath) <==> !hasSession && path != LoginPath
    ensures d == Redirect("/") <==> hasSession && path == LoginPath
    ensures d == PassThrough <==> (hasSession <==> path != LoginPath)
  {
    if !hasSession && path != LoginPath then Redirect(LoginPath)
    else if hasSession && path == LoginPath then Redirect("/")
    else PassThrough
  }

  /** The login page itself is always reachable without a session. */
  lemma LoginReachableWithoutSession()
    ensures Decide(false, LoginPath) == PassThrough
  {
  }

  // ------------------------------------------------------------ the path matcher

  /** The characters a regular-expression `.` does not match. */
  predicate IsLineTerminator(c: char) {
    c == '\n' || c == '\r' || c == '\U{2028}' || c == '\U{2029}'
  }

  predicate NoLineBreak(s: string) {
    forall i :: 0 <= i < |s| ==> !IsLineTerminator(s[i])
  }

  /** The alternative `.*\.svg` of the lookahead: `.svg` occurs with no line
      break before it. */
  function SvgAhead(s: string): (b: bool)
    ensures b <==> exists j :: OccursAt(s, ".svg", j) && NoLineBreak(s[..j])
  {
    if |s| < 4 then false
    else if s[..4] == ".svg" then
      assert OccursAt(s, ".svg", 0) && NoLineBreak(s[..0]);
      true
    else if IsLineTerminator(s[0]) then
      assert forall j :: OccursAt(s, ".svg", j) && j > 0 ==> !NoLineBreak(s[..j]) by {
        forall j | OccursAt(s, ".svg", j) && j > 0 ensures !NoLineBreak(s[..j]) {
          assert s[..j][0] == s[0];
        }
      }
      false
    else
      var b := SvgAhead(s[1..]);
      ShiftOccurrence(s);
      b
  }

  /** An occurrence in `s` past the first character is one in `s[1..]`, one place earlier. */
  lemma ShiftOccurrence(s: string)
    requires |s| >= 4 && s[..4] != ".svg" && !IsLineTerminator(s[0])
    ensures (exists j :: OccursAt(s, ".svg", j) && NoLineBreak(s[..j]))
        <==> (exists j :: OccursAt(s[1..], ".svg", j) && NoLineBreak(s[1..][..j]))
  {
    forall j | OccursAt(s, ".svg", j) && NoLineBreak(s[..j])
      ensures OccursAt(s[1..], ".svg", j - 1) && NoLineBreak(s[1..][..j - 1])
    {
      assert j != 0;
      assert s[1..][j - 1..j - 1 + 4] == s[j..j + 4];
      assert s[1..][..j - 1] == s[..j][1..];
    }
    forall j | OccursAt(s[1..], ".svg", j) && NoLineBreak(s[1..][..j])
      ensures OccursAt(s, ".svg", j + 1) && NoLineBreak(s[..j + 1])
    {
      assert s[j + 1..j + 1 + 4] == s[1..][j..j + 4];
      assert s[..j + 1] == [s[0]] + s[1..][..j];
    }
  }

  /** `favicon.ico` with its unescaped dot: any one character other than a line break. */
  predicate FaviconAhead(s: string) {
    |s| >= 11 && s[..7] == "favicon" && !IsLineTerminator(s[7]) && s[8..11] == "ico"
  }

  /** The negative lookahead `(?!_next/static|_next/image|favicon.ico|.*\.svg)`. */
  predicate Excluded(rest: string) {
    StartsWith(rest, "_next/static") || StartsWith(rest, "_next/image") || FaviconAhead(rest) || SvgAhead(rest)
  }

  /** The matcher `/((?!_next/static|_next/image|favicon.ico|.*\.svg).*)`, matched
      against the whole path: a slash, then a rest that is not excluded. */
  predicate Matched(path: string) {
    |path| >= 1 && path[0] == '/' && NoLineBreak(path[1..]) && !Excluded(path[1..])
  }

  /** A page request: the guard decides on matched paths only. */
  function Route(hasSession: bool, path: string): (d: Decision)
    ensures !Matched(path) ==> d == PassThrough
    ensures Matched(path) ==> d == Decide(hasSession, path)
  {
    if Matched(path) then Decide(hasSession, path) else PassThrough
  }

  /** Any path containing `.svg` (with no line break before it) skips the guard
      — not only paths ending in it. */
  lemma SvgPathsSkipGuard(path: string, j: nat, hasSession: bool)
    requires |path| >= 1 && path[0] == '/'
    requires OccursAt(path[1..], ".svg", j) && NoLineBreak(path[1..][..j])
    ensures Route(hasSession, path) == PassThrough
  {
  }

  /** Every path under `/_next/static` or `/_next/image`, and every path
      starting with `favicon`, any character but a line break, then `ico`,
      skips the guard. */
  lemma StaticAssetsSkipGuard(path: string, hasSession: bool)
    requires |path| >= 1 && path[0] == '/'
    requires StartsWith(path[1..], "_next/static") || StartsWith(path[1..], "_next/image") || FaviconAhead(path[1..])
    ensures Route(hasSession, path) == PassThrough
  {
  }

  /** The unescaped dot of `favicon.ico` lets `/favicon-ico` skip the guard too. */
  lemma FaviconAnyCharacter(hasSession: bool)
    ensures Route(hasSession, "/favicon.ico") == PassThrough
    ensures Route(hasSession, "/favicon-ico") == PassThrough
  {
    assert "/favicon.ico"[1..] == "favicon.ico" && FaviconAhead("favicon.ico");
    assert "/favicon-ico"[1..] == "favicon-ico" && FaviconAhead("favicon-ico");
    StaticAssetsSkipGuard("/favicon.ico", hasSession);
    StaticAssetsSkipGuard("/favicon-ico", hasSession);
  }

  /** A rest without a dot cannot contain `.svg`. */
  lemma NoDotNoSvg(s: string)
    requires forall i :: 0 <= i < |s| ==> s[i] != '.'
    ensures !SvgAhead(s)
  {
    forall j | 0 <= j && j + 4 <= |s|
      ensures !OccursAt(s, ".svg", j)
    {
      assert s[j..j + 4][0] == s[j];
    }
  }

  /** A visitor without a session asking for the start page is sent to the login page. */
  lemma StartPageGuarded()
    ensures Route(false, "/") == Redirect(LoginPath)
  {
    NoDotNoSvg("");
  }

  /** So is one asking for the dashboard. */
  lemma DashboardGuarded()
    ensures Route(false, "/dashboard") == Redirect(LoginPath)
  {
    var rest := "dashboard";
    assert "/dashboard"[1..] == rest;
    NoDotNoSvg(rest);
    assert !Excluded(rest);
  }

  /** A signed-in user asking for the login page is sent to the start page. */
  lemma SignedInLeavesLogin()
    ensures Route(true, LoginPath) == Redirect("/")
  {
    var rest := "login";
    assert LoginPath[1..] == rest;
    NoDotNoSvg(rest);
    assert !Excluded(rest);
  }
}
