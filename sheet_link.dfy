/**
 * The spreadsheet link in the sync dialog: a pasted sheet URL is reduced to
 * its id, the "Open Sheet" link is built back from the id, and a sync is
 * started only with a non-blank id.
 */
module SheetLink {
  import opened Types
  import Strings

  /** The text the id follows in a sheet URL. */
  const Marker: string := "/spreadsheets/d/"

  /** The scheme and host of a sheet link. */
  const Host: string := "https://docs.google.com"

  const UrlPrefix: string := Host + Marker

  /** The characters of `[a-zA-Z0-9-_]`. */
  predicate IdChar(c: char)
  {
    'a' <= c <= 'z' || 'A' <= c <= 'Z' || '0' <= c <= '9' || c == '-' || c == '_'
  }

  predicate AllIdChars(s: string)
  {
    forall i :: 0 <= i < |s| ==> IdChar(s[i])
  }

  /** The length of the run of id characters that starts s. */
  function IdRun(s: string): (n: nat)
    ensures n <= |s|
    ensures AllIdChars(s[..n])
    ensures n < |s| ==> !IdChar(s[n])
  {
    if s == [] || !IdChar(s[0]) then 0
    else
      var n := 1 + IdRun(s[1..]);
      assert s[..n] == [s[0]] + s[1..][..n - 1];
      n
  }

  /** The pattern matches at i: the marker sits there and at least one id character follows it. */
  predicate MatchAt(s: string, i: nat)
  {
    i + |Marker| < |s| && s[i..i + |Marker|] == Marker && IdChar(s[i + |Marker|])
  }

  /** The leftmost position at or after i where the pattern matches, as a regular-expression search finds it. */
  function FirstMatch(s: string, i: nat): (r: Option<nat>)
    requires i <= |s|
    ensures r.Some? ==> i <= r.value && MatchAt(s, r.value) && forall j :: i <= j < r.value ==> !MatchAt(s, j)
    ensures r.None? ==> forall j :: i <= j <= |s| ==> !MatchAt(s, j)
    decreases |s| - i
  {
    if i + |Marker| >= |s| then None
    else if MatchAt(s, i) then Some(i)
    else FirstMatch(s, i + 1)
  }

  /**
   * extractSheetId: the whole run of id characters after the leftmost match
   * of the marker, or the input unchanged when the pattern does not match.
   */
  function ExtractSheetId(url: string): (r: string)
    ensures FirstMatch(url, 0).Some? ==> r != [] && AllIdChars(r)
    ensures FirstMatch(url, 0).None? ==> r == url
  {
    match FirstMatch(url, 0)
    case None => url
    case Some(i) =>
      var start := i + |Marker|;
      var rest := url[start..];
      var n := IdRun(rest);
      assert rest[..n] == url[start..start + n];
      url[start..start + n]
  }

  /** A string of id characters holds no '/', so the pattern cannot match in it. */
  lemma NoMatchInId(s: string)
    requires AllIdChars(s)
    ensures FirstMatch(s, 0).None?
  {
    forall j | 0 <= j <= |s|
      ensures !MatchAt(s, j)
    {
      if j + |Marker| < |s| {
        assert s[j..j + |Marker|][0] == s[j] != Marker[0];
      }
    }
  }

  /** Extracting twice gives what extracting once gives. */
  lemma ExtractIdempotent(url: string)
    ensures ExtractSheetId(ExtractSheetId(url)) == ExtractSheetId(url)
  {
    var r := ExtractSheetId(url);
    if FirstMatch(url, 0).Some? {
      NoMatchInId(r);
    }
  }

  /** The "Open Sheet" link for an id. */
  function SheetUrl(id: string): (u: string)
    ensures |u| == |UrlPrefix| + |id| + 5 && u[..|UrlPrefix|] == UrlPrefix
  {
    UrlPrefix + id + "/edit"
  }

  /** The id of a sheet, a non-empty string of id characters, comes back out of its link. */
  lemma ExtractFromSheetUrl(id: string)
    requires id != [] && AllIdChars(id)
    ensures ExtractSheetId(SheetUrl(id)) == id
  {
    var u := SheetUrl(id);
    UrlMatchesAfterHost(id);
    var rest := u[|UrlPrefix|..];
    assert rest == id + "/edit";
    assert rest[..|id|] == id;
    IdRunOfPrefix(rest, |id|);
  }

  /** In a sheet link the pattern first matches where the host ends. */
  lemma UrlMatchesAfterHost(id: string)
    requires id != [] && AllIdChars(id)
    ensures FirstMatch(SheetUrl(id), 0) == Some(|Host|)
  {
    var u := SheetUrl(id);
    MatchAtHost(id);
    forall j | 0 <= j < |Host|
      ensures !MatchAt(u, j)
    {
      NoMatchInHost(id, j);
    }
    LeftmostMatch(u, |Host|);
  }

  /** A match with no match before it is the one the search finds. */
  lemma LeftmostMatch(s: string, at: nat)
    requires at <= |s| && MatchAt(s, at)
    requires forall j :: 0 <= j < at ==> !MatchAt(s, j)
    ensures FirstMatch(s, 0) == Some(at)
  {
  }

  /** The pattern matches where the host ends. */
  lemma MatchAtHost(id: string)
    requires id != [] && AllIdChars(id)
    ensures MatchAt(SheetUrl(id), |Host|)
  {
    var u := SheetUrl(id);
    var at := |Host|;
    assert u == Host + (Marker + id + "/edit");
    assert u[at..at + |Marker|] == Marker;
    assert u[at + |Marker|] == id[0];
  }

  /** The pattern matches nowhere inside the host. */
  lemma NoMatchInHost(id: string, j: nat)
    requires j < |Host|
    ensures !MatchAt(SheetUrl(id), j)
  {
    var u := SheetUrl(id);
    assert u[..|Host| + 1] == Host + "/";
    MatchStartsWithSlashS(u, j);
    assert u[j] == (Host + "/")[j] && u[j + 1] == (Host + "/")[j + 1];
    HostHasNoSlashS(j);
  }

  /** Where the pattern matches, the text starts with "/s". */
  lemma MatchStartsWithSlashS(s: string, j: nat)
    ensures MatchAt(s, j) ==> s[j] == '/' && s[j + 1] == 's'
  {
    if MatchAt(s, j) {
      assert s[j..j + |Marker|][0] == Marker[0];
      assert s[j..j + |Marker|][1] == Marker[1];
    }
  }

  /** "/s" does not occur in the host part, nor across its end. */
  lemma HostHasNoSlashS(j: nat)
    requires j < |Host|
    ensures !((Host + "/")[j] == '/' && (Host + "/")[j + 1] == 's')
  {
  }

  /** When s starts with n id characters followed by a non-id character, the run is n long. */
  lemma {:induction false} IdRunOfPrefix(s: string, n: nat)
    requires n < |s| && AllIdChars(s[..n]) && !IdChar(s[n])
    ensures IdRun(s) == n
  {
    if n > 0 {
      assert IdChar(s[..n][0]);
      assert s[1..][..n - 1] == s[..n][1..];
      IdRunOfPrefix(s[1..], n - 1);
    }
  }

  /** The link is shown only for a non-empty id. */
  function OpenSheetLink(sheetId: string): (r: Option<string>)
    ensures r.Some? <==> sheetId != []
    ensures r.Some? ==> |r.value| > |UrlPrefix| && r.value[..|UrlPrefix|] == UrlPrefix
  {
    if sheetId == [] then None else Some(SheetUrl(sheetId))
  }

  /** handleSync: onSync is called, with the trimmed id, only when the trimmed id is not empty. */
  function HandleSync(sheetId: string): (onSync: Option<string>)
    ensures onSync.Some? <==> exists i :: 0 <= i < |sheetId| && !Strings.IsWhitespace(sheetId[i])
    ensures onSync.Some? ==> onSync.value != [] && onSync.value == Strings.Trim(sheetId)
  {
    var id := Strings.Trim(sheetId);
    if id != [] then Some(id) else None
  }
}
