/** The URL scanner of app.py (`SimpleScanner`): the URL is normalised, its
    domain extracted, and the domain looked up in a list of known scam
    domains, a list of legitimate domains and a list of suspicious top-level
    domains, in that order.

    `ExtractDomain` models `extract_domain` as written, which keeps what
    follows the LAST '//' of the URL; `ScanUrlAsWritten` is the scanner built
    on it. `ExtractHost` and `ScanUrl` are the corrected forms, which take the
    host after the scheme's '//'. */
module UrlScanner {
  import opened Wrappers
  import opened Text
  import opened Scoring

  const KnownScamDomains: set<string> := {
    "tcnnationalizeuze.site", "gtbank-verify.tk",
    "nigerianlottery.com", "zenithbank-update.xyz",
    "profitize.site", "moneytized.online"
  }

  const LegitimateDomains: set<string> := {
    "zenithbank.com", "facebook.com", "google.com",
    "gtbank.com", "firstbanknigeria.com", "accessbankplc.com"
  }

  const SuspiciousTlds: seq<string> := [".tk", ".ml", ".ga", ".cf", ".xyz", ".top", ".club", ".site", ".online"]

  /** The leftmost occurrence of `sep` in `s` at or after `from`. */
  function FindFrom(s: string, sep: string, from: nat): (r: Option<nat>)
    ensures r.Some? ==> from <= r.value && OccursAt(s, sep, r.value) &&
                        forall j :: from <= j < r.value ==> !OccursAt(s, sep, j)
    ensures r.None? ==> forall j :: from <= j ==> !OccursAt(s, sep, j)
    decreases |s| - from
  {
    if from + |sep| > |s| then None
    else if OccursAt(s, sep, from) then Some(from)
    else FindFrom(s, sep, from + 1)
  }

  /** The leftmost occurrence of `sep` in `s`, the place where Python's
      `s.split(sep)` makes its first cut. */
  function FindFirst(s: string, sep: string): (r: Option<nat>)
    ensures r.Some? ==> OccursAt(s, sep, r.value)
  {
    FindFrom(s, sep, 0)
  }

  /** No occurrence of `sep` comes before the one `FindFirst` finds, and
      there is none at all when it finds none. */
  lemma FindFirstLeftmost(s: string, sep: string)
    ensures FindFirst(s, sep).Some? ==> forall j :: 0 <= j < FindFirst(s, sep).value ==> !OccursAt(s, sep, j)
    ensures FindFirst(s, sep).None? ==> !Contains(s, sep)
  {
  }

  /** Where the last piece of Python's `s.split(sep)` starts: cut at the
      leftmost occurrence of `sep` and carry on with what follows it, until
      no occurrence is left. */
  function LastCut(s: string, sep: string): (p: nat)
    requires |sep| > 0
    ensures p <= |s|
    decreases |s|
  {
    match FindFirst(s, sep)
    case None => 0
    case Some(i) => i + |sep| + LastCut(s[i + |sep|..], sep)
  }

  /** Python's `s.split(sep)[-1]`. `LastPieceSound` says which suffix of
      `s` it is. */
  function LastPiece(s: string, sep: string): (r: string)
    requires |sep| > 0
    ensures |r| <= |s| && r == s[|s| - |r|..]
  {
    s[LastCut(s, sep)..]
  }

  /** The last piece holds no `sep`; it is all of `s` when `s` holds no
      `sep`, and otherwise it starts right after an occurrence of `sep`. */
  lemma LastPieceSound(s: string, sep: string)
    requires |sep| > 0
    ensures var r := LastPiece(s, sep);
            !Contains(r, sep) &&
            (!Contains(s, sep) ==> r == s) &&
            (|r| < |s| ==> |r| + |sep| <= |s| && OccursAt(s, sep, |s| - |r| - |sep|))
  {
    LastCutLeavesNone(s, sep);
    NoneInSuffix(s, sep, LastCut(s, sep));
    LastCutFollowsOccurrence(s, sep);
    if FindFirst(s, sep).Some? {
      assert OccursAt(s, sep, FindFirst(s, sep).value);
    }
  }

  /** No occurrence of `sep` starts at or after the last cut. */
  lemma {:induction false} LastCutLeavesNone(s: string, sep: string)
    requires |sep| > 0
    ensures forall j :: LastCut(s, sep) <= j ==> !OccursAt(s, sep, j)
    decreases |s|
  {
    FindFirstLeftmost(s, sep);
    match FindFirst(s, sep)
    case None =>
    case Some(i) =>
      var t := s[i + |sep|..];
      var q := LastCut(t, sep);
      LastCutLeavesNone(t, sep);
      forall j | LastCut(s, sep) <= j ensures !OccursAt(s, sep, j) {
        if OccursAt(s, sep, j) {
          OccursUnshift(s, sep, i + |sep|, j, j - i - |sep|);
        }
      }
  }

  /** A last cut other than 0 lies right after an occurrence of `sep`. */
  lemma {:induction false} LastCutFollowsOccurrence(s: string, sep: string)
    requires |sep| > 0
    ensures LastCut(s, sep) > 0 ==> LastCut(s, sep) >= |sep| && OccursAt(s, sep, LastCut(s, sep) - |sep|)
    decreases |s|
  {
    match FindFirst(s, sep)
    case None =>
    case Some(i) =>
      LastCutFollowsOccurrence(s[i + |sep|..], sep);
      FollowsOccurrenceStep(s, sep, i, LastCut(s[i + |sep|..], sep), LastCut(s, sep));
  }

  /** One step of `LastCutFollowsOccurrence`: the last cut `c` of `s` lies
      `q` past the occurrence at `i`, where `q` is the last cut of what
      follows that occurrence. */
  lemma FollowsOccurrenceStep(s: string, sep: string, i: nat, q: nat, c: nat)
    requires OccursAt(s, sep, i) && q <= |s| - i - |sep| && c == i + |sep| + q
    requires q > 0 ==> q >= |sep| && OccursAt(s[i + |sep|..], sep, q - |sep|)
    ensures c >= |sep| && OccursAt(s, sep, c - |sep|)
  {
    if q > 0 {
      OccursShiftTo(s, sep, i + |sep|, q - |sep|, c - |sep|);
    }
  }

  /** With no occurrence at or after `p`, the suffix from `p` holds none. */
  lemma NoneInSuffix(s: string, sep: string, p: nat)
    requires p <= |s|
    requires forall j :: p <= j ==> !OccursAt(s, sep, j)
    ensures !Contains(s[p..], sep)
  {
    forall j | 0 <= j <= |s[p..]| - |sep| ensures !OccursAt(s[p..], sep, j) {
      if OccursAt(s[p..], sep, j) {
        OccursShift(s, sep, p, j);
      }
    }
  }

  /** An occurrence in a suffix of `s` is an occurrence in `s`. */
  lemma OccursShift(s: string, sep: string, off: int, j: int)
    requires 0 <= off <= |s| && OccursAt(s[off..], sep, j)
    ensures OccursAt(s, sep, off + j)
  {
    assert s[off + j..off + j + |sep|] == s[off..][j..j + |sep|];
  }

  /** An occurrence at or after `off` is one in the suffix from `off`. */
  lemma OccursUnshift(s: string, sep: string, off: int, j: int, k: int)
    requires 0 <= off <= |s| && OccursAt(s, sep, j) && j == off + k && 0 <= k
    ensures OccursAt(s[off..], sep, k)
  {
    assert s[j..j + |sep|] == s[off..][k..k + |sep|];
  }

  /** The same, landing on a given index `q`. */
  lemma OccursShiftTo(s: string, sep: string, off: int, j: int, q: int)
    requires 0 <= off <= |s| && OccursAt(s[off..], sep, j) && q == off + j
    ensures OccursAt(s, sep, q)
  {
    OccursShift(s, sep, off, j);
  }

  /** Python's `s.split(sep)[0]`: the prefix of `s` before the leftmost
      occurrence of `sep`, or all of `s`. */
  function FirstPiece(s: string, sep: string): (r: string)
    requires |sep| > 0
    ensures |r| <= |s| && r == s[..|r|]
    ensures !Contains(r, sep)
    ensures |r| < |s| ==> OccursAt(s, sep, |r|)
  {
    FindFirstLeftmost(s, sep);
    match FindFirst(s, sep)
    case None => s
    case Some(i) =>
      assert forall j :: 0 <= j <= i - |sep| && OccursAt(s[..i], sep, j) ==> OccursAt(s, sep, j);
      s[..i]
  }

  /** Drops one leading "www.". */
  function StripWww(d: string): (r: string)
    ensures StartsWith(d, "www.") ==> r == d[4..]
    ensures !StartsWith(d, "www.") ==> r == d
  {
    if StartsWith(d, "www.") then d[4..] else d
  }

  /** `d` is the run of characters of `url` from `p` up to the next '/' or
      the end. */
  predicate RunAt(url: string, d: string, p: int)
  {
    OccursAt(url, d, p) && NoSlash(d) && (p + |d| == |url| || url[p + |d|] == '/')
  }

  /** `d` is the domain found in the part of `url` that starts at `p`: the
      run up to the next '/', after the "www." when the part starts with
      one. */
  predicate DomainAt(url: string, d: string, p: int)
  {
    if OccursAt(url, "www.", p) then RunAt(url, d, p + 4) else RunAt(url, d, p)
  }

  /** The domain taken from a suffix of a URL is found where that suffix
      starts. */
  lemma DomainOfSuffix(url: string, p: int)
    requires 0 <= p <= |url|
    ensures DomainAt(url, StripWww(FirstPiece(url[p..], "/")), p)
  {
    var rest := url[p..];
    var f := FirstPiece(rest, "/");
    NoSeparatorNoSlash(f);
    assert url[p..p + |f|] == f;
    if |f| < |rest| {
      assert rest[|f|..|f| + 1] == "/";
      assert url[p + |f|] == rest[|f|];
    }
    if StartsWith(f, "www.") {
      assert url[p..p + 4] == f[..4];
      assert url[p + 4..p + 4 + |f[4..]|] == f[4..];
    }
  }

  /** `extract_domain` as written: what follows the last '//', cut before its
      first '/', without a leading "www.". The domain starts right after a
      "//" beyond which the URL holds no further "//", or at the start of a
      URL without "//". */
  function ExtractDomain(url: string): (domain: string)
    ensures exists p :: 0 <= p <= |url| && DomainAt(url, domain, p) &&
                        !Contains(url[p..], "//") && (p == 0 || OccursAt(url, "//", p - 2))
    ensures DomainAt(url, domain, LastCut(url, "//"))
  {
    var piece := LastPiece(url, "//");
    var p := |url| - |piece|;
    LastPieceSound(url, "//");
    DomainOfSuffix(url, p);
    StripWww(FirstPiece(piece, "/"))
  }

  /** Text without a '/' is its own domain, less a leading "www.". */
  lemma PlainTextIsItsDomain(s: string)
    requires NoSlash(s)
    ensures ExtractDomain(s) == StripWww(s)
  {
    NoSlashNoSeparator(s);
    assert LastCut(s, "//") == 0;
    assert s + [] == s;
    FirstPieceStops(s, []);
  }

  /** A leading "www." is dropped from the domain: the domain of
      "www.bank.com" is "bank.com". */
  lemma WwwIsDropped(name: string)
    requires NoSlash(name)
    ensures ExtractDomain("www." + name) == name
  {
    var s := "www." + name;
    assert forall i :: 0 <= i < |s| ==> s[i] == (if i < 4 then "www."[i] else name[i - 4]);
    PlainTextIsItsDomain(s);
    assert s[..4] == "www." && s[4..] == name;
  }

  /** The split cuts from left to right without overlap: "a///b" is cut
      once, after its third character, which leaves "/b" and the empty
      domain. */
  lemma OddSlashRunExample()
    ensures ExtractDomain("a///b") == ""
  {
    var s := "a///b";
    assert s[0..2] == "a/" && s[1..3] == "//";
    FindFirstIs(s, "//", 1);
    assert s[3..] == "/b";
    assert "/b"[0..2] == "/b";
    assert FindFirst("/b", "//") == None;
    assert LastCut("/b", "//") == 0;
    assert LastCut(s, "//") == 3;
    FindFirstIs("/b", "/", 0);
  }

  /** "////b" is cut after its second and its fourth slash, so its domain is
      "b". */
  lemma EvenSlashRunExample()
    ensures ExtractDomain("////b") == "b"
  {
    var s := "////b";
    assert s[0..2] == "//";
    FindFirstIs(s, "//", 0);
    assert s[2..] == "//b" && "//b"[0..2] == "//";
    FindFirstIs("//b", "//", 0);
    assert "//b"[2..] == "b";
    FindFirstLeftmost("b", "//");
    assert LastCut(s, "//") == 4;
    FindFirstLeftmost("b", "/");
  }

  /** The corrected extraction: what follows the first '//' (the scheme's),
      cut before its first '/', without a leading "www.". The host starts
      right after the first "//" of the URL, or at the start of a URL
      without "//". */
  function ExtractHost(url: string): (host: string)
    ensures !Contains(url, "//") ==> DomainAt(url, host, 0)
    ensures Contains(url, "//") ==>
              exists p :: 2 <= p <= |url| && DomainAt(url, host, p) &&
                          OccursAt(url, "//", p - 2) && !Contains(url[..p - 1], "//")
  {
    FindFirstLeftmost(url, "//");
    match FindFirst(url, "//")
    case None =>
      DomainOfSuffix(url, 0);
      StripWww(FirstPiece(url, "/"))
    case Some(i) =>
      DomainOfSuffix(url, i + 2);
      NoEarlierSeparator(url, i);
      StripWww(FirstPiece(url[i + 2..], "/"))
  }

  /** With no "//" before index `i`, the prefix ending one past `i` holds
      none. */
  lemma NoEarlierSeparator(url: string, i: nat)
    requires i + 1 <= |url|
    requires forall j :: 0 <= j < i ==> !OccursAt(url, "//", j)
    ensures !Contains(url[..i + 1], "//")
  {
    var pre := url[..i + 1];
    forall j | 0 <= j <= |pre| - 2 ensures !OccursAt(pre, "//", j) {
      assert pre[j..j + 2] == url[j..j + 2];
      assert !OccursAt(url, "//", j);
    }
  }

  /** A string without "/" has no '/' in it. */
  lemma NoSeparatorNoSlash(s: string)
    requires !Contains(s, "/")
    ensures NoSlash(s)
  {
    forall i | 0 <= i < |s| ensures s[i] != '/' {
      assert !OccursAt(s, "/", i);
      assert s[i..i + 1] == [s[i]];
    }
  }

  /** `url.lower().strip()`, with "http://" put in front when the result
      starts with neither "http://" nor "https://". */
  function Normalize(url: string): (n: string)
    ensures StartsWith(n, "http://") || StartsWith(n, "https://")
    ensures var m := Strip(ToLower(url));
      (n == m || n == "http://" + m) &&
      (n == m <==> StartsWith(m, "http://") || StartsWith(m, "https://"))
  {
    var n := Strip(ToLower(url));
    if StartsWith(n, "http://") || StartsWith(n, "https://") then n else "http://" + n
  }

  /** One value per message the scanner can answer with. */
  datatype UrlVerdict = KnownScam | LegitimateSite | SuspiciousDomain | NoMajorIssues

  /** The `type` field reported with each message. */
  function KindOf(v: UrlVerdict): Kind
  {
    match v
    case KnownScam => Scam
    case LegitimateSite => Safe
    case SuspiciousDomain => Warning
    case NoMajorIssues => Safe
  }

  predicate HasSuspiciousTld(domain: string)
  {
    exists k :: 0 <= k < |SuspiciousTlds| && EndsWith(domain, SuspiciousTlds[k])
  }

  /** The lookups in order: the scam list wins over the legitimate list,
      which wins over the suspicious endings; anything else is safe. */
  function ClassifyDomain(domain: string): (v: UrlVerdict)
    ensures v == KnownScam <==> domain in KnownScamDomains
    ensures v == LegitimateSite <==> domain !in KnownScamDomains && domain in LegitimateDomains
    ensures v == SuspiciousDomain <==>
            domain !in KnownScamDomains && domain !in LegitimateDomains && HasSuspiciousTld(domain)
    ensures KindOf(v) == Safe <==>
            domain !in KnownScamDomains && (domain in LegitimateDomains || !HasSuspiciousTld(domain))
  {
    if domain in KnownScamDomains then KnownScam
    else if domain in LegitimateDomains then LegitimateSite
    else if HasSuspiciousTld(domain) then SuspiciousDomain
    else NoMajorIssues
  }

  /** `scan_url` as written: 'scam' exactly for a domain on the scam list,
      'warning' exactly for an unlisted domain with a suspicious ending. */
  function ScanUrlAsWritten(url: string): (v: UrlVerdict)
    ensures var d := ExtractDomain(Normalize(url));
      (KindOf(v) == Scam <==> d in KnownScamDomains) &&
      (KindOf(v) == Warning <==> d !in KnownScamDomains && d !in LegitimateDomains && HasSuspiciousTld(d))
  {
    ClassifyDomain(ExtractDomain(Normalize(url)))
  }

  /** The scanner with the corrected extraction: the same verdicts, on the
      host. */
  function ScanUrl(url: string): (v: UrlVerdict)
    ensures var d := ExtractHost(Normalize(url));
      (KindOf(v) == Scam <==> d in KnownScamDomains) &&
      (KindOf(v) == Warning <==> d !in KnownScamDomains && d !in LegitimateDomains && HasSuspiciousTld(d))
  {
    ClassifyDomain(ExtractHost(Normalize(url)))
  }

  predicate NoSlash(s: string)
  {
    forall i :: 0 <= i < |s| ==> s[i] != '/'
  }

  /** A string without '/' holds no "//" nor "/". */
  lemma NoSlashNoSeparator(s: string)
    requires NoSlash(s)
    ensures !Contains(s, "//") && !Contains(s, "/")
  {
    forall i | 0 <= i < |s| ensures !OccursAt(s, "//", i) && !OccursAt(s, "/", i) {
      assert s[i..i + 1][0] == s[i];
      if i + 2 <= |s| {
        assert s[i..i + 2][0] == s[i];
      }
    }
  }

  /** When the part before a "//" holds no "//" and does not end in '/', that
      "//" is where `split('//')` cuts first. */
  lemma {:induction false} FirstCutAfter(a: string, b: string)
    requires !Contains(a, "//") && (a == [] || a[|a| - 1] != '/')
    ensures FindFirst(a + "//" + b, "//") == Some(|a|)
  {
    var s := a + "//" + b;
    FindFirstLeftmost(s, "//");
    assert OccursAt(s, "//", |a|) by {
      assert s[|a|..|a| + 2] == "//";
    }
    forall j | 0 <= j < |a| ensures !OccursAt(s, "//", j) {
      if j + 1 < |a| {
        assert a[j..j + 2] == s[j..j + 2];
        assert !OccursAt(a, "//", j);
      } else {
        assert s[j..j + 2][0] == a[|a| - 1];
      }
    }
  }

  /** Skipping one "//" as `split('//')[-1]` does. */
  lemma {:induction false} LastPieceSkips(a: string, b: string)
    requires !Contains(a, "//") && (a == [] || a[|a| - 1] != '/')
    ensures LastPiece(a + "//" + b, "//") == LastPiece(b, "//")
  {
    FirstCutAfter(a, b);
    var s := a + "//" + b;
    assert s[|a| + 2..] == b;
    assert s[|a| + 2 + LastCut(b, "//")..] == b[LastCut(b, "//")..];
  }

  /** "h/q" with slash-free `h` and non-empty slash-free `q` holds no "//"
      and does not end in '/'. */
  lemma {:induction false} SingleSlashJoin(h: string, q: string)
    requires NoSlash(h) && NoSlash(q) && |q| > 0
    ensures !Contains(h + "/" + q, "//")
    ensures (h + "/" + q)[|h + "/" + q| - 1] != '/'
  {
    var s := h + "/" + q;
    forall i | 0 <= i <= |s| - 2 ensures !OccursAt(s, "//", i) {
      if i < |h| {
        assert s[i..i + 2][0] == h[i];
      } else if i == |h| {
        assert s[i..i + 2][1] == q[0];
      } else {
        assert s[i..i + 2][0] == q[i - |h| - 1];
      }
    }
    assert s[|s| - 1] == q[|q| - 1];
  }

  /** For a URL "scheme//host" followed by nothing or by a path starting with
      '/', the corrected extraction gives the host without "www.". */
  lemma {:induction false} ExtractHostOfUrl(scheme: string, host: string, path: string)
    requires NoSlash(scheme) && NoSlash(host)
    requires path == [] || path[0] == '/'
    ensures ExtractHost(scheme + "//" + (host + path)) == StripWww(host)
  {
    NoSlashNoSeparator(scheme);
    FirstCutAfter(scheme, host + path);
    assert (scheme + "//" + (host + path))[|scheme| + 2..] == host + path;
    FirstPieceStops(host, path);
  }

  /** A slash-free host followed by nothing or by a path starting with '/'
      is cut back to the host. */
  lemma FirstPieceStops(host: string, path: string)
    requires NoSlash(host)
    requires path == [] || path[0] == '/'
    ensures FirstPiece(host + path, "/") == host
  {
    var s := host + path;
    NoSlashNoSeparator(host);
    if path == [] {
      assert s == host;
    } else {
      assert OccursAt(s, "/", |host|) by { assert s[|host|..|host| + 1] == [path[0]]; }
      forall j | 0 <= j < |host| ensures !OccursAt(s, "/", j) {
        assert s[j..j + 1][0] == host[j];
      }
      FindFirstIs(s, "/", |host|);
    }
  }

  /** An occurrence with none before it is the one `FindFirst` finds. */
  lemma FindFirstIs(s: string, sep: string, i: nat)
    requires OccursAt(s, sep, i) && forall j :: 0 <= j < i ==> !OccursAt(s, sep, j)
    ensures FindFirst(s, sep) == Some(i)
  {
    FindFirstLeftmost(s, sep);
    assert Contains(s, sep);
  }

  /** A link "scheme//host/query//target": a host, a query without '/', and
      a second "//" inside the query (a redirect parameter, say). */
  function RedirectUrl(scheme: string, host: string, query: string, target: string): string
  {
    scheme + "//" + (host + ("/" + query + "//" + target))
  }

  /** The extraction as written, on such a link, yields the redirect target
      and not the host. */
  lemma {:induction false} RedirectReplacesDomain(scheme: string, host: string, query: string, target: string)
    requires NoSlash(scheme) && NoSlash(host) && NoSlash(query) && |query| > 0 && NoSlash(target)
    ensures ExtractDomain(RedirectUrl(scheme, host, query, target)) == StripWww(target)
  {
    var inner := host + "/" + query;
    var rest := inner + "//" + target;
    assert host + ("/" + query + "//" + target) == rest;
    NoSlashNoSeparator(scheme);
    LastPieceSkips(scheme, rest);
    SingleSlashJoin(host, query);
    LastPieceSkips(inner, target);
    NoSlashNoSeparator(target);
  }

  /** The corrected extraction, on the same link, yields the host. */
  lemma {:induction false} RedirectKeepsHost(scheme: string, host: string, query: string, target: string)
    requires NoSlash(scheme) && NoSlash(host)
    ensures ExtractHost(RedirectUrl(scheme, host, query, target)) == StripWww(host)
  {
    ExtractHostOfUrl(scheme, host, "/" + query + "//" + target);
  }

  predicate NoUpper(s: string)
  {
    forall i :: 0 <= i < |s| ==> !IsUpper(s[i])
  }

  lemma NoUpperJoin(a: string, b: string)
    requires NoUpper(a) && NoUpper(b)
    ensures NoUpper(a + b)
  {
    forall i | |a| <= i < |a + b| ensures !IsUpper((a + b)[i]) {
      assert (a + b)[i] == b[i - |a|];
    }
  }

  /** A lower-case URL that already carries its scheme and has no
      surrounding whitespace is left as it is by the normalisation. */
  lemma NormalizeNoop(url: string)
    requires NoUpper(url) && |url| > 0 && !IsSpace(url[0]) && !IsSpace(url[|url| - 1])
    requires StartsWith(url, "http://") || StartsWith(url, "https://")
    ensures Normalize(url) == url
  {
    LowerOfLower(url);
    StripNoop(url);
  }

  /** The normalisation leaves "scheme//rest" alone when the scheme is
      "http:" or "https:" and the rest is lower case, non-empty and does not
      end in whitespace. */
  lemma SchemeUrlIsNormal(scheme: string, rest: string)
    requires scheme == "http:" || scheme == "https:"
    requires NoUpper(rest) && |rest| > 0 && !IsSpace(rest[|rest| - 1])
    ensures Normalize(scheme + "//" + rest) == scheme + "//" + rest
  {
    var url := scheme + "//" + rest;
    NoUpperJoin(scheme, "//");
    NoUpperJoin(scheme + "//", rest);
    assert url[|url| - 1] == rest[|rest| - 1];
    assert url[0] == 'h';
    if scheme == "http:" {
      assert url[..7] == "http://";
    } else {
      assert url[..8] == "https://";
    }
    NormalizeNoop(url);
  }

  /** On a URL that is already normal, both scanners classify the domain
      extracted from the URL itself. */
  lemma ScanOfNormalUrl(url: string)
    requires Normalize(url) == url
    ensures ScanUrl(url) == ClassifyDomain(ExtractHost(url))
    ensures ScanUrlAsWritten(url) == ClassifyDomain(ExtractDomain(url))
  {
  }

  /** A character of a plain domain name. */
  predicate IsNameChar(c: char)
  {
    'a' <= c <= 'z' || IsDigit(c) || c == '.' || c == '-'
  }

  /** A lower-case, slash-free, non-empty name with no "www." in front and
      no whitespace at its end: a domain as it appears in the lists. */
  predicate PlainName(d: string)
  {
    NoUpper(d) && NoSlash(d) && |d| > 0 && !StartsWith(d, "www.") && !IsSpace(d[|d| - 1])
  }

  lemma ListedDomainsArePlainNames(d: string)
    requires d in KnownScamDomains || d in LegitimateDomains
    ensures PlainName(d)
  {
    if d in KnownScamDomains {
      ScamDomainsAreNames(d);
    } else {
      LegitimateDomainsAreNames(d);
    }
    NamesArePlain(d);
  }

  /** A domain of name characters not starting with 'w' is a plain name. */
  lemma NamesArePlain(d: string)
    requires |d| > 0 && d[0] != 'w' && forall i :: 0 <= i < |d| ==> IsNameChar(d[i])
    ensures PlainName(d)
  {
    FirstCharDiffers(d, "www.");
  }

  lemma ScamDomainsAreNames(d: string)
    requires d in KnownScamDomains
    ensures |d| > 0 && d[0] != 'w' && forall i :: 0 <= i < |d| ==> IsNameChar(d[i])
  {
  }

  lemma LegitimateDomainsAreNames(d: string)
    requires d in LegitimateDomains
    ensures |d| > 0 && d[0] != 'w' && forall i :: 0 <= i < |d| ==> IsNameChar(d[i])
  {
  }

  /** `scheme` is one the normalisation keeps. */
  predicate WebScheme(scheme: string)
  {
    scheme == "http:" || scheme == "https:"
  }

  /** A URL "http(s)://[www.]domain" followed by nothing or by a lower-case
      path is already normal. */
  lemma {:induction false} PlainUrlIsNormal(scheme: string, prefix: string, domain: string, path: string)
    requires WebScheme(scheme) && (prefix == "" || prefix == "www.") && PlainName(domain)
    requires path == [] || (path[0] == '/' && NoUpper(path) && !IsSpace(path[|path| - 1]))
    ensures Normalize(scheme + "//" + (prefix + domain + path)) == scheme + "//" + (prefix + domain + path)
  {
    var host := prefix + domain;
    var rest := host + path;
    NoUpperJoin(prefix, domain);
    NoUpperJoin(host, path);
    assert rest[|rest| - 1] == if path == [] then domain[|domain| - 1] else path[|path| - 1];
    SchemeUrlIsNormal(scheme, rest);
  }

  /** The corrected extraction finds the plain domain of such a URL. */
  lemma {:induction false} HostOfPlainUrl(scheme: string, prefix: string, domain: string, path: string)
    requires WebScheme(scheme) && (prefix == "" || prefix == "www.") && PlainName(domain)
    requires path == [] || path[0] == '/'
    ensures ExtractHost(scheme + "//" + (prefix + domain + path)) == domain
  {
    var host := prefix + domain;
    assert NoSlash(host) by {
      forall i | 0 <= i < |host| ensures host[i] != '/' {
        if i >= |prefix| { assert host[i] == domain[i - |prefix|]; }
      }
    }
    ExtractHostOfUrl(scheme, host, path);
    if prefix == "www." {
      assert host[..4] == "www.";
      assert host[4..] == domain;
    } else {
      assert host == domain;
    }
  }

  /** With the corrected extraction, a URL "http(s)://[www.]domain" followed by
      nothing or by a lower-case path is reported as a known scam whenever the
      domain is on the scam list. */
  lemma {:induction false} ScamHostIsAlwaysCaught(scheme: string, prefix: string, domain: string, path: string)
    requires WebScheme(scheme) && (prefix == "" || prefix == "www.")
    requires domain in KnownScamDomains
    requires path == [] || (path[0] == '/' && NoUpper(path) && !IsSpace(path[|path| - 1]))
    ensures ScanUrl(scheme + "//" + (prefix + domain + path)) == KnownScam
  {
    ListedDomainsArePlainNames(domain);
    PlainUrlIsNormal(scheme, prefix, domain, path);
    HostOfPlainUrl(scheme, prefix, domain, path);
  }

  /** A redirect link between plain names with a lower-case query is
      already normal. */
  lemma {:induction false} RedirectUrlIsNormal(scheme: string, host: string, query: string, target: string)
    requires WebScheme(scheme) && PlainName(host) && PlainName(target) && NoUpper(query)
    ensures Normalize(RedirectUrl(scheme, host, query, target)) == RedirectUrl(scheme, host, query, target)
  {
    var tail := "/" + query + "//" + target;
    NoUpperJoin("/", query);
    NoUpperJoin("/" + query, "//");
    NoUpperJoin("/" + query + "//", target);
    NoUpperJoin(host, tail);
    assert (host + tail)[|host + tail| - 1] == target[|target| - 1];
    SchemeUrlIsNormal(scheme, host + tail);
  }

  /** On a redirect link between plain names, the extraction as written
      yields the target and the corrected one the host. */
  lemma {:induction false} RedirectDomains(scheme: string, host: string, query: string, target: string)
    requires WebScheme(scheme) && PlainName(host) && PlainName(target)
    requires NoSlash(query) && NoUpper(query) && |query| > 0
    ensures Normalize(RedirectUrl(scheme, host, query, target)) == RedirectUrl(scheme, host, query, target)
    ensures ExtractDomain(RedirectUrl(scheme, host, query, target)) == target
    ensures ExtractHost(RedirectUrl(scheme, host, query, target)) == host
  {
    RedirectUrlIsNormal(scheme, host, query, target);
    WebSchemeHasNoSlash(scheme);
    PlainNameHasNoWww(host);
    PlainNameHasNoWww(target);
    RedirectReplacesDomain(scheme, host, query, target);
    RedirectKeepsHost(scheme, host, query, target);
  }

  lemma WebSchemeHasNoSlash(scheme: string)
    requires WebScheme(scheme)
    ensures NoSlash(scheme)
  {
  }

  lemma PlainNameHasNoWww(d: string)
    requires PlainName(d)
    ensures StripWww(d) == d
  {
  }

  /** The lists decide the verdict of each listed domain. */
  lemma ListedDomainsClassified(d: string)
    ensures d in KnownScamDomains ==> ClassifyDomain(d) == KnownScam
    ensures d in LegitimateDomains ==> ClassifyDomain(d) == LegitimateSite
  {
  }

  /** The fault of `extract_domain`: a link to a known scam domain whose
      query carries a second "//" followed by a legitimate domain (a redirect
      parameter) is reported as a legitimate site by the scanner as written,
      and as a known scam by the corrected one. */
  lemma {:induction false} RedirectLinkFoolsScanner(scheme: string, host: string, query: string, target: string)
    requires WebScheme(scheme) && host in KnownScamDomains && target in LegitimateDomains
    requires NoSlash(query) && NoUpper(query) && |query| > 0
    ensures ScanUrlAsWritten(RedirectUrl(scheme, host, query, target)) == LegitimateSite
    ensures KindOf(ScanUrlAsWritten(RedirectUrl(scheme, host, query, target))) == Safe
    ensures ScanUrl(RedirectUrl(scheme, host, query, target)) == KnownScam
  {
    ListedDomainsArePlainNames(host);
    ListedDomainsArePlainNames(target);
    RedirectDomains(scheme, host, query, target);
    ScanOfNormalUrl(RedirectUrl(scheme, host, query, target));
    ListedDomainsClassified(host);
    ListedDomainsClassified(target);
  }

  /** One such link: "http://gtbank-verify.tk/?next=https://google.com". */
  lemma RedirectExample(scheme: string, host: string, query: string, target: string)
    requires scheme == "http:" && host == "gtbank-verify.tk" && query == "?next=https:" && target == "google.com"
    ensures ScanUrlAsWritten(RedirectUrl(scheme, host, query, target)) == LegitimateSite
    ensures ScanUrl(RedirectUrl(scheme, host, query, target)) == KnownScam
  {
    assert NoSlash(query) && NoUpper(query);
    RedirectLinkFoolsScanner(scheme, host, query, target);
  }
}
