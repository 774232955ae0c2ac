/** The Credential Locator: the optional cookie file handed to the extractor
    is the first of three fixed candidate paths that exists on disk. */
module Credentials {
  import opened JsValues

  /** What the locator may observe of its host: the server's own directory,
      the process's working directory and a file-existence test. */
  datatype Host = Host(serverDir: string, cwd: string, isWindows: bool, fileExists: string -> bool)

  const CookieFileName := "cookies.txt"

  /** Joins a directory and a name with one separator. */
  function Join(dir: string, name: string): (p: string)
    ensures |p| == |dir| + 1 + |name|
    ensures p[..|dir|] == dir && p[|dir| + 1..] == name
  {
    dir + "/" + name
  }

  /** The candidates, in the order they are tried: next to the server
      source, in the working directory, in the working directory's parent. */
  function CookieCandidates(h: Host): (c: seq<string>)
    ensures |c| == 3
    ensures forall i :: 0 <= i < |c| ==> c[i] != ""
    ensures forall i :: 0 <= i < |c| ==>
              |c[i]| > |CookieFileName| && c[i][|c[i]| - |CookieFileName|..] == CookieFileName
    ensures h.serverDir + "/" <= c[0]
    ensures h.cwd + "/" <= c[1]
    ensures h.cwd + "/../" <= c[2]
  {
    [Join(h.serverDir, CookieFileName),
     Join(h.cwd, CookieFileName),
     Join(Join(h.cwd, ".."), CookieFileName)]
  }

  /** The first candidate that exists, or none. */
  function FirstExisting(candidates: seq<string>, fileExists: string -> bool): (r: Option<string>)
    ensures r.Some? ==> r.value in candidates && fileExists(r.value)
    ensures r.None? <==> forall i :: 0 <= i < |candidates| ==> !fileExists(candidates[i])
  {
    if candidates == [] then None
    else if fileExists(candidates[0]) then Some(candidates[0])
    else FirstExisting(candidates[1..], fileExists)
  }

  /** First match wins: an existing candidate is chosen exactly when no
      earlier candidate exists. */
  lemma {:induction false} FirstExistingIsFirst(candidates: seq<string>, fileExists: string -> bool, i: nat)
    requires i < |candidates| && fileExists(candidates[i])
    requires forall j :: 0 <= j < i ==> !fileExists(candidates[j])
    ensures FirstExisting(candidates, fileExists) == Some(candidates[i])
  {
    if i > 0 {
      assert !fileExists(candidates[0]);
      FirstExistingIsFirst(candidates[1..], fileExists, i - 1);
    }
  }

  /** Conversely, the chosen path is some candidate that exists and every
      candidate before it does not. */
  lemma {:induction false} FirstExistingChosen(candidates: seq<string>, fileExists: string -> bool)
    requires FirstExisting(candidates, fileExists).Some?
    ensures exists i :: 0 <= i < |candidates| &&
              candidates[i] == FirstExisting(candidates, fileExists).value &&
              fileExists(candidates[i]) &&
              forall j :: 0 <= j < i ==> !fileExists(candidates[j])
  {
    if !fileExists(candidates[0]) {
      FirstExistingChosen(candidates[1..], fileExists);
      var i :| 0 <= i < |candidates[1..]| &&
               candidates[1..][i] == FirstExisting(candidates[1..], fileExists).value &&
               fileExists(candidates[1..][i]) &&
               forall j :: 0 <= j < i ==> !fileExists(candidates[1..][j]);
      assert candidates[i + 1] == candidates[1..][i];
      forall j | 0 <= j < i + 1 ensures !fileExists(candidates[j]) {
        if j > 0 { assert candidates[j] == candidates[1..][j - 1]; }
      }
    } else {
      assert candidates[0] == FirstExisting(candidates, fileExists).value;
    }
  }

  /** The lookup as the request handlers perform it: a variable starts out
      empty and an if/else chain assigns the first path that exists. */
  method LocateCookies(h: Host) returns (actual: Option<string>)
    ensures actual == FirstExisting(CookieCandidates(h), h.fileExists)
    ensures Truthy(actual) <==> actual.Some?
  {
    var cookiePath := Join(h.serverDir, CookieFileName);
    var altCookiePath := Join(h.cwd, CookieFileName);
    var rootCookiePath := Join(Join(h.cwd, ".."), CookieFileName);
    actual := None;
    if h.fileExists(cookiePath) {
      actual := Some(cookiePath);
    } else if h.fileExists(altCookiePath) {
      actual := Some(altCookiePath);
    } else if h.fileExists(rootCookiePath) {
      actual := Some(rootCookiePath);
    }
    ghost var c := CookieCandidates(h);
    assert c[1..] == [altCookiePath, rootCookiePath] && c[1..][1..] == [rootCookiePath];
    assert FirstExisting(c[1..][1..], h.fileExists) ==
             if h.fileExists(rootCookiePath) then Some(rootCookiePath) else None;
    assert FirstExisting(c[1..], h.fileExists) ==
             if h.fileExists(altCookiePath) then Some(altCookiePath)
             else FirstExisting(c[1..][1..], h.fileExists);
  }
}
