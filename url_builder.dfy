/** Catalog API paths (lineage_core/adapters/omd/http/lineage_url_builder.py), with the
    percent-encoding of `urllib.parse.quote(s, safe='')`: the string is UTF-8 encoded and
    every byte outside the unreserved set of section 2.3 of RFC 3986 becomes `%XX` with
    upper-case hex digits (section 2.1 of RFC 3986). */
module UrlBuilder {
  import opened Outcomes
  import opened Text
  import opened Types
  import opened Registry

  newtype byte = x: int | 0 <= x < 256

  // ---------------------------------------------------------------- UTF-8 and percent-encoding

  /** The UTF-8 encoding of one Unicode scalar value. */
  function Utf8Char(c: char): (bs: seq<byte>)
    ensures 1 <= |bs| <= 4
    ensures (c as int) < 0x80 <==> |bs| == 1
    ensures |bs| == 1 ==> bs[0] as int == c as int
  {
    var cp := c as int;
    if cp < 0x80 then [cp as byte]
    else if cp < 0x800 then [(0xC0 + cp / 64) as byte, (0x80 + cp % 64) as byte]
    else if cp < 0x10000 then [(0xE0 + cp / 4096) as byte, (0x80 + (cp / 64) % 64) as byte, (0x80 + cp % 64) as byte]
    else [(0xF0 + cp / 262144) as byte, (0x80 + (cp / 4096) % 64) as byte, (0x80 + (cp / 64) % 64) as byte, (0x80 + cp % 64) as byte]
  }

  function Utf8(s: string): seq<byte>
    decreases |s|
  {
    if s == [] then [] else Utf8Char(s[0]) + Utf8(s[1..])
  }

  /** RFC 3986 section 2.3: ALPHA / DIGIT / "-" / "." / "_" / "~". */
  predicate UnreservedChar(c: char)
  {
    ('A' <= c <= 'Z') || ('a' <= c <= 'z') || ('0' <= c <= '9') || c == '-' || c == '.' || c == '_' || c == '~'
  }

  predicate UnreservedByte(b: byte)
  {
    b < 128 && UnreservedChar((b as int) as char)
  }

  function HexDigit(d: nat): (c: char)
    requires d < 16
    ensures UnreservedChar(c)
  {
    "0123456789ABCDEF"[d]
  }

  predicate IsHexDigit(c: char)
  {
    ('0' <= c <= '9') || ('A' <= c <= 'F')
  }

  function HexValue(c: char): (d: nat)
    requires IsHexDigit(c)
    ensures d < 16
  {
    if '0' <= c <= '9' then (c as int) - ('0' as int) else (c as int) - ('A' as int) + 10
  }

  lemma HexRoundTrip(d: nat)
    requires d < 16
    ensures IsHexDigit(HexDigit(d)) && HexValue(HexDigit(d)) == d
  {
  }

  /** One byte, as `quote` writes it. */
  function QuoteByte(b: byte): (r: string)
    ensures forall i :: 0 <= i < |r| ==> UnreservedChar(r[i]) || r[i] == '%'
  {
    if UnreservedByte(b) then [(b as int) as char]
    else ['%', HexDigit((b as int) / 16), HexDigit((b as int) % 16)]
  }

  function QuoteBytes(bs: seq<byte>): (r: string)
    ensures forall i :: 0 <= i < |r| ==> UnreservedChar(r[i]) || r[i] == '%'
    decreases |bs|
  {
    if bs == [] then [] else QuoteByte(bs[0]) + QuoteBytes(bs[1..])
  }

  /** `urllib.parse.quote(s, safe='')`: only unreserved characters and `%` escapes remain,
      so the result never holds a path, query or parameter separator. */
  function Quote(s: string): (r: string)
    ensures forall i :: 0 <= i < |r| ==> UnreservedChar(r[i]) || r[i] == '%'
    ensures '/' !in r && '?' !in r && '&' !in r && '=' !in r && ',' !in r
  {
    QuoteBytes(Utf8(s))
  }

  /** Percent-decoding back to bytes; `None` for a character `quote` never writes or a
      malformed escape. */
  function Unquote(q: string): Option<seq<byte>>
    decreases |q|
  {
    if q == [] then Some([])
    else if q[0] == '%' then
      if |q| >= 3 && IsHexDigit(q[1]) && IsHexDigit(q[2]) then
        var rest := Unquote(q[3..]);
        if rest.None? then None else Some([(HexValue(q[1]) * 16 + HexValue(q[2])) as byte] + rest.value)
      else None
    else if UnreservedChar(q[0]) then
      var rest := Unquote(q[1..]);
      if rest.None? then None else Some([(q[0] as int) as byte] + rest.value)
    else None
  }

  lemma {:induction false} UnquoteQuoteBytes(bs: seq<byte>)
    ensures Unquote(QuoteBytes(bs)) == Some(bs)
    decreases |bs|
  {
    if bs != [] {
      var b, rest := bs[0], bs[1..];
      UnquoteQuoteBytes(rest);
      var q := QuoteBytes(bs);
      assert q == QuoteByte(b) + QuoteBytes(rest);
      if UnreservedByte(b) {
        assert q[0] == (b as int) as char && q[1..] == QuoteBytes(rest);
      } else {
        var hi, lo := (b as int) / 16, (b as int) % 16;
        HexRoundTrip(hi);
        HexRoundTrip(lo);
        assert q[0] == '%' && q[1] == HexDigit(hi) && q[2] == HexDigit(lo);
        assert q[3..] == QuoteBytes(rest);
      }
      assert [b] + rest == bs;
    }
  }

  /** Decoding the quoted text gives back the UTF-8 bytes of the original string. */
  lemma UnquoteQuote(s: string)
    ensures Unquote(Quote(s)) == Some(Utf8(s))
  {
    UnquoteQuoteBytes(Utf8(s));
  }

  /** A string of unreserved ASCII characters is left as it is. */
  lemma {:induction false} QuoteUnreserved(s: string)
    requires forall i :: 0 <= i < |s| ==> UnreservedChar(s[i])
    ensures Quote(s) == s
    decreases |s|
  {
    if s != [] {
      QuoteUnreserved(s[1..]);
      assert Utf8(s) == Utf8Char(s[0]) + Utf8(s[1..]);
      assert Quote(s) == QuoteByte(Utf8Char(s[0])[0]) + Quote(s[1..]);
      assert [s[0]] + s[1..] == s;
    }
  }

  // ---------------------------------------------------------------- the builder

  function StripLeft(s: string, c: char): (r: string)
    ensures |r| <= |s| && r == s[|s| - |r|..]
    ensures forall k :: 0 <= k < |s| - |r| ==> s[k] == c
    ensures r == [] || r[0] != c
    decreases |s|
  {
    if s != [] && s[0] == c then StripLeft(s[1..], c) else s
  }

  function StripRight(s: string, c: char): (r: string)
    ensures |r| <= |s| && r == s[..|r|]
    ensures forall k :: |r| <= k < |s| ==> s[k] == c
    ensures r == [] || r[|r| - 1] != c
    decreases |s|
  {
    if s != [] && s[|s| - 1] == c then StripRight(s[..|s| - 1], c) else s
  }

  /** `s.strip(c)`: `s` with every leading and trailing `c` cut away, and nothing else. */
  function Strip(s: string, c: char): (r: string)
    ensures r == [] || (r[0] != c && r[|r| - 1] != c)
    ensures exists i :: OccursAt(s, r, i) && (forall k :: 0 <= k < i ==> s[k] == c)
                                          && (forall k :: i + |r| <= k < |s| ==> s[k] == c)
  {
    var l := StripLeft(s, c);
    var r := StripRight(l, c);
    var i := |s| - |l|;
    assert r == s[i..i + |r|];
    assert OccursAt(s, r, i);
    assert forall k :: i + |r| <= k < |s| ==> s[k] == l[k - i];
    r
  }

  lemma StripIdempotent(s: string, c: char)
    ensures Strip(Strip(s, c), c) == Strip(s, c)
  {
  }

  datatype LineageUrlBuilder = LineageUrlBuilder(apiVersion: string)

  /** The constructor stores the version with surrounding slashes removed. */
  function NewLineageUrlBuilder(apiVersion: string): (b: LineageUrlBuilder)
    ensures b.apiVersion == Strip(apiVersion, '/')
  {
    LineageUrlBuilder(Strip(apiVersion, '/'))
  }

  function EntityPath(t: EntityType): (p: string)
    ensures p == EntityTypeValue(t) + "s"
    ensures '/' !in p && '?' !in p
  {
    ResolverGetPath(t).value
  }

  // Every path is written as its `/`-separated segments; the leading empty segment gives
  // the leading slash of `/api/...`.

  /** `by_fqn`: `/api/{v}/{path}/name/{quote(fqn)}`, plus `?fields=` and the comma-joined
      fields when there are any. */
  function ByFqn(b: LineageUrlBuilder, t: EntityType, fqn: string, fields: seq<string>): string
  {
    var base := FqnPath(b, t, fqn);
    if fields != [] then base + "?fields=" + Join(fields, ",") else base
  }

  function FqnPath(b: LineageUrlBuilder, t: EntityType, fqn: string): string
  {
    Join(["", "api", b.apiVersion, EntityPath(t), "name", Quote(fqn)], "/")
  }

  /** `by_id`: `/api/{v}/{path}/{id}` with the id as it is. */
  function ById(b: LineageUrlBuilder, t: EntityType, id: string): string
  {
    Join(["", "api", b.apiVersion, EntityPath(t), id], "/")
  }

  /** `lineage_table_by_fqn`. */
  function LineageTableByFqn(b: LineageUrlBuilder, fqn: string, upstreamDepth: int, downstreamDepth: int): string
  {
    Join(["", "api", b.apiVersion, "lineage", "table", "name", Quote(fqn)], "/")
      + "?" + Join(["upstreamDepth=" + IntToString(upstreamDepth), "downstreamDepth=" + IntToString(downstreamDepth)], "&")
  }

  /** `lineage_add_path`. */
  function LineageAddPath(b: LineageUrlBuilder): string
  {
    Join(["", "api", b.apiVersion, "lineage"], "/")
  }

  /** `lineage_delete_path`. */
  function LineageDeletePath(b: LineageUrlBuilder, fromFqn: string, toFqn: string): string
  {
    Join(["", "api", b.apiVersion, "lineage", "table", "name", Quote(fromFqn), "table", "name", Quote(toFqn)], "/")
  }

  /** The path of `by_fqn` has exactly the segments `api`, the version, the entity path,
      `name` and the quoted fqn, whatever characters the fqn holds. */
  lemma ByFqnSegments(b: LineageUrlBuilder, t: EntityType, fqn: string)
    requires '/' !in b.apiVersion
    ensures Split(ByFqn(b, t, fqn, []), '/') == ["", "api", b.apiVersion, EntityPath(t), "name", Quote(fqn)]
  {
    SplitJoin(["", "api", b.apiVersion, EntityPath(t), "name", Quote(fqn)], '/');
  }

  lemma PathNoQuery(segs: seq<string>)
    requires forall i :: 0 <= i < |segs| ==> '?' !in segs[i]
    ensures '?' !in Join(segs, "/")
  {
    JoinNoChar(segs, "/", '?');
  }

  lemma QueryConcat(base: string, j: string)
    ensures base + "?fields=" + j == base + ['?'] + ("fields=" + j)
  {
    var l, r := base + "?fields=" + j, base + ['?'] + ("fields=" + j);
    assert |l| == |r|;
    forall k | 0 <= k < |l| ensures l[k] == r[k] {
      if k < |base| + 8 {
        assert l[k] == (base + "?fields=")[k];
      }
    }
  }

  /** A query string is appended exactly when fields are requested, and it is then the
      only `?` of the URL. */
  lemma {:induction false} ByFqnQuery(b: LineageUrlBuilder, t: EntityType, fqn: string, fields: seq<string>)
    requires '?' !in b.apiVersion
    requires forall i :: 0 <= i < |fields| ==> '?' !in fields[i]
    ensures '?' in ByFqn(b, t, fqn, fields) <==> fields != []
    ensures fields != [] ==> Split(ByFqn(b, t, fqn, fields), '?') == [ByFqn(b, t, fqn, []), "fields=" + Join(fields, ",")]
  {
    var base := FqnPath(b, t, fqn);
    PathNoQuery(["", "api", b.apiVersion, EntityPath(t), "name", Quote(fqn)]);
    if fields != [] {
      var query := "fields=" + Join(fields, ",");
      JoinNoChar(fields, ",", '?');
      assert '?' !in query;
      SplitTwo(base, '?', query);
      QueryConcat(base, Join(fields, ","));
    }
  }

  /** `by_id` leaves the id unencoded: the URL ends with the id itself, and a
      slash-free id is a single last segment. */
  lemma ByIdSegments(b: LineageUrlBuilder, t: EntityType, id: string)
    ensures var url := ById(b, t, id); |url| >= |id| && url[|url| - |id|..] == id
    ensures '/' !in b.apiVersion && '/' !in id ==>
      Split(ById(b, t, id), '/') == ["", "api", b.apiVersion, EntityPath(t), id]
  {
    JoinEndsWith(["", "api", b.apiVersion, EntityPath(t), id], "/");
    if '/' !in b.apiVersion && '/' !in id {
      SplitJoin(["", "api", b.apiVersion, EntityPath(t), id], '/');
    }
  }

  lemma IntStringChars(i: int)
    ensures '&' !in IntToString(i) && '?' !in IntToString(i) && '/' !in IntToString(i)
  {
    if i < 0 {
      assert IntToString(i)[1..] == NatToString(-i);
    }
  }

  /** The path part of the lineage URL: seven `/`-separated segments and no `?`. */
  lemma LineagePath(b: LineageUrlBuilder, fqn: string)
    requires '?' !in b.apiVersion && '/' !in b.apiVersion
    ensures var segs := ["", "api", b.apiVersion, "lineage", "table", "name", Quote(fqn)];
      '?' !in Join(segs, "/") && Split(Join(segs, "/"), '/') == segs
  {
    var segs := ["", "api", b.apiVersion, "lineage", "table", "name", Quote(fqn)];
    PathNoQuery(segs);
    SplitJoin(segs, '/');
  }

  /** The query part of the lineage URL: the two depth parameters and no `?`. */
  lemma DepthParams(up: int, down: int)
    ensures var params := ["upstreamDepth=" + IntToString(up), "downstreamDepth=" + IntToString(down)];
      '?' !in Join(params, "&") && Split(Join(params, "&"), '&') == params
  {
    var params := ["upstreamDepth=" + IntToString(up), "downstreamDepth=" + IntToString(down)];
    IntStringChars(up);
    IntStringChars(down);
    assert '?' !in params[0] && '?' !in params[1];
    JoinNoChar(params, "&", '?');
    SplitJoin(params, '&');
  }

  /** The lineage URL has one query string holding the upstream depth and then the
      downstream depth, as two `&`-separated parameters. */
  lemma LineageTableQuery(b: LineageUrlBuilder, fqn: string, up: int, down: int)
    requires '?' !in b.apiVersion && '/' !in b.apiVersion
    ensures var url := LineageTableByFqn(b, fqn, up, down);
      && |Split(url, '?')| == 2
      && Split(Split(url, '?')[0], '/') == ["", "api", b.apiVersion, "lineage", "table", "name", Quote(fqn)]
      && Split(Split(url, '?')[1], '&') == ["upstreamDepth=" + IntToString(up), "downstreamDepth=" + IntToString(down)]
  {
    var path := Join(["", "api", b.apiVersion, "lineage", "table", "name", Quote(fqn)], "/");
    var query := Join(["upstreamDepth=" + IntToString(up), "downstreamDepth=" + IntToString(down)], "&");
    LineagePath(b, fqn);
    DepthParams(up, down);
    SplitTwo(path, '?', query);
    assert LineageTableByFqn(b, fqn, up, down) == path + ['?'] + query;
  }

  /** The delete path carries both quoted fqns as whole segments, which percent-decode
      back to the fqns' bytes. */
  lemma LineageDeleteSegments(b: LineageUrlBuilder, fromFqn: string, toFqn: string)
    requires '/' !in b.apiVersion
    ensures Split(LineageDeletePath(b, fromFqn, toFqn), '/')
      == ["", "api", b.apiVersion, "lineage", "table", "name", Quote(fromFqn), "table", "name", Quote(toFqn)]
    ensures Unquote(Quote(fromFqn)) == Some(Utf8(fromFqn)) && Unquote(Quote(toFqn)) == Some(Utf8(toFqn))
  {
    SplitJoin(["", "api", b.apiVersion, "lineage", "table", "name", Quote(fromFqn), "table", "name", Quote(toFqn)], '/');
    UnquoteQuote(fromFqn);
    UnquoteQuote(toFqn);
  }

  /** The add (and delete-by-body) path is `/api/{v}/lineage`. */
  lemma LineageAddSegments(b: LineageUrlBuilder)
    requires '/' !in b.apiVersion
    ensures Split(LineageAddPath(b), '/') == ["", "api", b.apiVersion, "lineage"]
  {
    SplitJoin(["", "api", b.apiVersion, "lineage"], '/');
  }
}
