/**
 * The host allow-list of the local runner: `check_host_whitelist`, over
 * Python's `str.split` with an explicit separator.
 */
module HostGuard {
  import opened Wrappers

  const Comma: char := ','
  const WwwPrefix: string := "www."

  /**
   * Python's `s.split(sep)` for a one-character separator: pieces are
   * neither trimmed nor dropped when empty, and `"".split(sep)` is `[""]`.
   */
  function Split(s: string, sep: char): (r: seq<string>)
    ensures |r| >= 1
    decreases |s|
  {
    if s == [] then [[]]
    else if s[0] == sep then [[]] + Split(s[1..], sep)
    else Attach(s[0], Split(s[1..], sep))
  }

  /** Puts `c` in front of the first piece. */
  function Attach(c: char, pieces: seq<string>): (r: seq<string>)
    requires |pieces| >= 1
    ensures |r| == |pieces|
  {
    [[c] + pieces[0]] + pieces[1..]
  }

  /** Python's `sep.join(parts)`. */
  function Join(parts: seq<string>, sep: char): string
    requires |parts| >= 1
  {
    if |parts| == 1 then parts[0] else parts[0] + [sep] + Join(parts[1..], sep)
  }

  /** No piece of a split holds the separator. */
  lemma {:induction false} SplitPiecesHaveNoSeparator(s: string, sep: char)
    ensures forall i :: 0 <= i < |Split(s, sep)| ==> sep !in Split(s, sep)[i]
  {
    if s != [] {
      SplitPiecesHaveNoSeparator(s[1..], sep);
    }
  }

  /** Joining the pieces with the separator gives the string back. */
  lemma {:induction false} JoinSplit(s: string, sep: char)
    ensures Join(Split(s, sep), sep) == s
  {
    if s != [] {
      var rest := Split(s[1..], sep);
      JoinSplit(s[1..], sep);
      if s[0] == sep {
        assert Split(s, sep)[1..] == rest;
        assert s == [sep] + s[1..];
      } else {
        JoinAttach(s[0], rest, sep);
        assert s == [s[0]] + s[1..];
      }
    }
  }

  lemma JoinAttach(c: char, pieces: seq<string>, sep: char)
    requires |pieces| >= 1
    ensures Join(Attach(c, pieces), sep) == [c] + Join(pieces, sep)
  {
    var r := Attach(c, pieces);
    if |pieces| > 1 {
      assert r[1..] == pieces[1..];
    }
  }

  /** Splitting a join of separator-free pieces gives the pieces back. */
  lemma {:induction false} SplitJoin(parts: seq<string>, sep: char)
    requires |parts| >= 1
    requires forall i :: 0 <= i < |parts| ==> sep !in parts[i]
    ensures Split(Join(parts, sep), sep) == parts
  {
    if |parts| == 1 {
      SplitPiece(parts[0], [], sep);
      assert parts[0] + [] == parts[0];
      assert Split([], sep) == [[]];
      assert parts == [parts[0]];
    } else {
      SplitJoin(parts[1..], sep);
      var tail := Join(parts[1..], sep);
      SplitPiece(parts[0], [sep] + tail, sep);
      assert ([sep] + tail)[1..] == tail;
      var r := Split([sep] + tail, sep);
      assert r == [[]] + parts[1..];
      assert r[0] == [] && r[1..] == parts[1..];
      assert Join(parts, sep) == parts[0] + ([sep] + tail);
      assert Split(Join(parts, sep), sep) == [parts[0] + r[0]] + r[1..];
      assert parts[0] + r[0] == parts[0];
      assert [parts[0]] + parts[1..] == parts;
    }
  }

  /** A separator-free prefix of `t` becomes the head of the first piece. */
  lemma {:induction false} SplitPiece(p: string, t: string, sep: char)
    requires sep !in p
    ensures Split(p + t, sep) == [p + Split(t, sep)[0]] + Split(t, sep)[1..]
  {
    if p != [] {
      SplitPiece(p[1..], t, sep);
      assert (p + t)[1..] == p[1..] + t;
      assert [p[0]] + (p[1..] + Split(t, sep)[0]) == p + Split(t, sep)[0];
    } else {
      var r := Split(t, sep);
      assert p + t == t && p + r[0] == r[0];
      assert [r[0]] + r[1..] == r;
    }
  }

  /** The Host header as the f-string `f"www.{host}"` renders it: a missing header is `None`. */
  function HostText(host: Option<string>): string
  {
    if host.Some? then host.value else "None"
  }

  /**
   * `check_host_whitelist`: an empty allow-list admits everyone; otherwise
   * the raw header value, port included, or `www.` before it must be one of
   * the comma-separated entries.
   */
  function CheckHostWhitelist(whitelist: string, host: Option<string>): bool
  {
    if whitelist == "" then true
    else
      var allowedHosts := Split(whitelist, Comma);
      if |allowedHosts| < 1 then true
      else (host.Some? && host.value in allowedHosts) || WwwPrefix + HostText(host) in allowedHosts
  }

  /** With no allow-list every request is admitted, whatever its Host header. */
  lemma EmptyWhitelistAdmitsAll(host: Option<string>)
    ensures CheckHostWhitelist("", host)
  {
  }

  /** With an allow-list, a host is admitted iff it or its `www.` form is an entry. */
  lemma WhitelistAdmission(whitelist: string, host: string)
    requires whitelist != ""
    ensures CheckHostWhitelist(whitelist, Some(host))
        <==> host in Split(whitelist, Comma) || WwwPrefix + host in Split(whitelist, Comma)
  {
  }

  /** Without a Host header only an entry spelled `www.None` admits the request. */
  lemma MissingHostHeader(whitelist: string)
    requires whitelist != ""
    ensures CheckHostWhitelist(whitelist, None) <==> "www.None" in Split(whitelist, Comma)
  {
    assert WwwPrefix + HostText(None) == "www.None";
  }

  /** The `len(allowed_hosts) < 1` branch is dead: a split is never empty. */
  lemma SplitNeverEmpty(s: string)
    ensures |Split(s, Comma)| >= 1
  {
  }

  /** A list of one entry splits into that entry. */
  lemma SingleEntry(entry: string)
    requires Comma !in entry
    ensures Split(entry, Comma) == [entry]
  {
    SplitJoin([entry], Comma);
  }

  /** An apex entry does not admit its `www.` host: the check runs one way only. */
  lemma ApexEntryRejectsWww(apex: string)
    requires apex != "" && Comma !in apex
    ensures !CheckHostWhitelist(apex, Some(WwwPrefix + apex))
  {
    SingleEntry(apex);
    assert |WwwPrefix + apex| != |apex| && |WwwPrefix + (WwwPrefix + apex)| != |apex|;
  }

  /** A `www.` entry admits the apex host. */
  lemma WwwEntryAdmitsApex(apex: string)
    requires Comma !in apex
    ensures CheckHostWhitelist(WwwPrefix + apex, Some(apex))
  {
    assert Comma !in WwwPrefix + apex;
    SingleEntry(WwwPrefix + apex);
  }

  /** Entries are compared untrimmed: a blank after the comma is part of the entry. */
  lemma EntriesAreNotTrimmed(first: string, host: string)
    requires Comma !in first && Comma !in host
    requires host != first && WwwPrefix + host != first
    ensures !CheckHostWhitelist(first + ", " + host, Some(host))
    ensures CheckHostWhitelist(first + ", " + host, Some(" " + host))
  {
    var entries := [first, " " + host];
    SplitJoin(entries, Comma);
    assert Join(entries, Comma) == first + ", " + host;
    assert |" " + host| != |host|;
    assert (WwwPrefix + host)[0] != (" " + host)[0];
  }

  /** The header is compared with its port: `host:port` is not `host`. */
  lemma PortIsPartOfHost(host: string, port: string)
    requires host != "" && Comma !in host && Comma !in port
    ensures !CheckHostWhitelist(host, Some(host + ":" + port))
    ensures CheckHostWhitelist(host + ":" + port, Some(host + ":" + port))
  {
    assert Comma !in host + ":" + port;
    SingleEntry(host + ":" + port);
    SingleEntry(host);
    assert |host + ":" + port| != |host| && |WwwPrefix + (host + ":" + port)| != |host|;
  }
}
