/** The part of URL parsing the download engine depends on: `Url::parse`, then
    `path_segments`, then the last segment, which names the downloaded file. */
module Urls {
  import opened Wrappers
  import Strings

  /** A parsed URL: its scheme, its host when it has an authority, and its path
      (query and fragment cut off). */
  datatype Url = Url(scheme: string, host: Option<string>, path: string)

  predicate IsAsciiAlpha(c: char) { 'a' <= c <= 'z' || 'A' <= c <= 'Z' }

  predicate IsSchemeChar(c: char) { IsAsciiAlpha(c) || '0' <= c <= '9' || c == '+' || c == '-' || c == '.' }

  /** A letter followed by letters, digits, `+`, `-` or `.`. */
  predicate IsScheme(s: string) { |s| > 0 && IsAsciiAlpha(s[0]) && forall i :: 0 <= i < |s| ==> IsSchemeChar(s[i]) }

  function LowerAsciiChar(c: char): char
  {
    if 'A' <= c <= 'Z' then (c as int + 32) as char else c
  }

  /** ASCII lower-casing, as the URL standard applies to schemes. */
  function LowerAscii(s: string): (r: string)
    ensures |r| == |s|
    ensures forall i :: 0 <= i < |s| ==> r[i] == LowerAsciiChar(s[i])
  {
    if s == [] then [] else [LowerAsciiChar(s[0])] + LowerAscii(s[1..])
  }

  /** A string without upper-case ASCII letters is its own lower-casing. */
  lemma LowerAsciiOfLower(s: string)
    requires forall i :: 0 <= i < |s| ==> !('A' <= s[i] <= 'Z')
    ensures LowerAscii(s) == s
  {
  }

  /** The schemes the URL standard parses with an authority and a non-empty path. */
  predicate IsSpecial(scheme: string) { LowerAscii(scheme) in {"http", "https", "ws", "wss", "ftp"} }

  function DropSlashes(s: string): (r: string)
    ensures r == [] || r[0] != '/'
  {
    if s != [] && s[0] == '/' then DropSlashes(s[1..]) else s
  }

  /** `Url::parse`: `None` when the input does not start with a valid scheme followed by
      `:`, or when a special scheme has an empty host; a special URL's path is never
      empty (`/` at least). */
  function Parse(url: string): (r: Option<Url>)
    ensures r.Some? ==> IsScheme(r.value.scheme)
    ensures r.Some? && IsSpecial(r.value.scheme) ==>
      r.value.host.Some? && r.value.host.value != [] && |r.value.path| > 0 && r.value.path[0] == '/'
  {
    if url != [] && IsAsciiAlpha(url[0]) then ParseScheme(url[1..], [url[0]]) else None
  }

  /** The scheme state of the URL parser: scheme characters are collected until the `:`;
      any other character, or the end of the input, means there is no scheme. */
  function ParseScheme(input: string, scheme: string): (r: Option<Url>)
    requires IsScheme(scheme)
    ensures r.Some? ==> IsScheme(r.value.scheme)
    ensures r.Some? && IsSpecial(r.value.scheme) ==>
      r.value.host.Some? && r.value.host.value != [] && |r.value.path| > 0 && r.value.path[0] == '/'
    decreases |input|
  {
    if input == [] then None
    else if input[0] == ':' then ParseAfterScheme(scheme, Strings.PrefixBefore(input[1..], {'?', '#'}))
    else if IsSchemeChar(input[0]) then ParseScheme(input[1..], scheme + [input[0]])
    else None
  }

  /** Scheme characters before the `:` are read into the scheme. */
  lemma {:induction false} ParseSchemeReads(a: string, b: string, scheme: string)
    requires IsScheme(scheme) && IsScheme(scheme + a)
    ensures ParseScheme(a + ":" + b, scheme) == ParseScheme(":" + b, scheme + a)
    decreases |a|
  {
    if a == [] {
      assert a + ":" + b == ":" + b && scheme + a == scheme;
    } else {
      var next := scheme + [a[0]];
      assert (scheme + a)[|scheme|] == a[0] && IsSchemeChar(a[0]);
      assert (a + ":" + b)[0] == a[0] && (a + ":" + b)[1..] == a[1..] + ":" + b;
      assert next + a[1..] == scheme + a;
      assert IsScheme(next) by {
        forall i | 0 <= i < |next| ensures IsSchemeChar(next[i]) {
          assert next[i] == (scheme + a)[i];
        }
      }
      ParseSchemeReads(a[1..], b, next);
    }
  }

  /** The rest of `Url::parse`, given the scheme and what follows its `:` up to the
      query or fragment. */
  function ParseAfterScheme(scheme: string, rest: string): (r: Option<Url>)
    requires IsScheme(scheme)
    ensures r.Some? ==> r.value.scheme == scheme
    ensures r.Some? && IsSpecial(scheme) ==>
      r.value.host.Some? && r.value.host.value != [] && |r.value.path| > 0 && r.value.path[0] == '/'
  {
    if IsSpecial(scheme) then
      var after := DropSlashes(rest);
      var host := Strings.PrefixBefore(after, {'/'});
      if host == [] then None
      else
        var path := after[|host|..];
        Some(Url(scheme, Some(host), if path == [] then "/" else path))
    else if |rest| >= 2 && rest[..2] == "//" then
      var host := Strings.PrefixBefore(rest[2..], {'/'});
      Some(Url(scheme, Some(host), rest[2 + |host|..]))
    else
      Some(Url(scheme, None, rest))
  }

  /** `Url::path_segments`: `None` unless the path starts with `/` (a URL that cannot be
      a base); otherwise the pieces after that `/`, never fewer than one. */
  function PathSegments(u: Url): (r: Option<seq<string>>)
    ensures r.Some? ==> |r.value| >= 1
  {
    if |u.path| > 0 && u.path[0] == '/' then Some(Strings.Split(u.path[1..], '/')) else None
  }

  /** The name `download_file` gives the downloaded file: the last path segment. */
  function FileName(url: string): (r: Option<string>)
    ensures r.Some? ==> '/' !in r.value
  {
    match Parse(url)
    case None => None
    case Some(u) =>
      match PathSegments(u)
      case None => None
      case Some(segments) => Some(segments[|segments| - 1])
  }

  /** A valid scheme and its `:` are read as that scheme. */
  lemma ParseReadsScheme(scheme: string, b: string)
    requires IsScheme(scheme)
    ensures Parse(scheme + ":" + b) == ParseAfterScheme(scheme, Strings.PrefixBefore(b, {'?', '#'}))
  {
    var url := scheme + ":" + b;
    assert url[0] == scheme[0] && url[1..] == scheme[1..] + ":" + b;
    assert [scheme[0]] + scheme[1..] == scheme;
    ParseSchemeReads(scheme[1..], b, [scheme[0]]);
    assert (":" + b)[0] == ':' && (":" + b)[1..] == b;
  }

  lemma HttpsIsSpecial()
    ensures IsScheme("https") && IsSpecial("https")
  {
    LowerAsciiOfLower("https");
  }

  /** `https://` is read as the special scheme `https`, followed by what comes after
      the `:` up to the query or fragment. */
  lemma HttpsScheme(tail: string)
    ensures IsScheme("https") && IsSpecial("https")
    ensures Parse("https://" + tail) == ParseAfterScheme("https", Strings.PrefixBefore("//" + tail, {'?', '#'}))
  {
    assert "https://" + tail == "https" + ":" + ("//" + tail);
    HttpsIsSpecial();
    ParseReadsScheme("https", "//" + tail);
  }

  /** After `https:`, the slashes, a host and a path starting with `/`. */
  lemma HttpsAuthority(host: string, path: string)
    requires host != [] && '/' !in host
    requires |path| > 0 && path[0] == '/'
    requires IsScheme("https") && IsSpecial("https")
    ensures ParseAfterScheme("https", "//" + (host + path)) == Some(Url("https", Some(host), path))
  {
    var t := "//" + (host + path);
    assert t[1..] == "/" + (host + path) && t[1..][1..] == host + path;
    assert (host + path)[0] == host[0] && host[0] in host;
    assert DropSlashes(host + path) == host + path;
    assert DropSlashes(t[1..]) == DropSlashes(t[1..][1..]);
    Strings.PrefixBeforeStop(host, path, {'/'});
    assert (host + path)[|host|..] == path;
  }

  /** Slashes, a host and a path with no `?` and no `#` are read whole. */
  lemma AuthorityHasNoQuery(host: string, path: string)
    requires '?' !in host && '#' !in host && '?' !in path && '#' !in path
    ensures Strings.PrefixBefore("//" + (host + path), {'?', '#'}) == "//" + (host + path)
  {
    var t := "//" + (host + path);
    forall i | 0 <= i < |t| ensures t[i] !in {'?', '#'} {
      assert t[i] in t;
    }
    Strings.PrefixBeforeStop(t, [], {'?', '#'});
    assert t + [] == t;
  }

  /** An `https` URL with a host and an absolute path, no query and no fragment. */
  lemma ParseHttps(host: string, path: string)
    requires host != [] && '/' !in host && '?' !in host && '#' !in host
    requires |path| > 0 && path[0] == '/' && '?' !in path && '#' !in path
    ensures Parse("https://" + (host + path)) == Some(Url("https", Some(host), path))
  {
    HttpsScheme(host + path);
    AuthorityHasNoQuery(host, path);
    HttpsAuthority(host, path);
  }

  /** A parsed URL with an absolute path is named by the last piece of that path. */
  lemma FileNameOfParsed(url: string, u: Url)
    requires Parse(url) == Some(u) && |u.path| > 0 && u.path[0] == '/'
    ensures var segments := Strings.Split(u.path[1..], '/'); FileName(url) == Some(segments[|segments| - 1])
  {
  }

  lemma SlashJoined(dir: string, name: string)
    ensures ("/" + dir + "/" + name)[1..] == dir + ['/'] + name
  {
  }

  /** An `https` URL whose path ends in `/name` yields `name`. */
  lemma FileNameOfHttps(host: string, dir: string, name: string)
    requires host != [] && '/' !in host && '?' !in host && '#' !in host
    requires '?' !in dir && '#' !in dir
    requires '/' !in name && '?' !in name && '#' !in name
    ensures FileName("https://" + (host + ("/" + dir + "/" + name))) == Some(name)
  {
    var path := "/" + dir + "/" + name;
    ParseHttps(host, path);
    FileNameOfParsed("https://" + (host + path), Url("https", Some(host), path));
    SlashJoined(dir, name);
    Strings.SplitAround(dir, '/', name);
  }
}
