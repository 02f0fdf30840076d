/** The request-source check of the `/submit` handler (formodoro/main.py)
    and the allow-list it runs against, read once at start-up from the
    comma-separated CORS_ORIGINS setting. */
module Origin {
  import opened Values

  /** The allow-list used when CORS_ORIGINS is not set. */
  const DefaultOrigins: string := "https://yourfrontend.com"

  const InvalidSource: string := "Invalid request source"

  /** Python's `s.split(",")`: the pieces between the commas, in order.
      Never empty: the empty string splits into one empty piece. */
  function Split(s: string): (parts: seq<string>)
    ensures |parts| >= 1
    ensures forall i :: 0 <= i < |parts| ==> ',' !in parts[i]
    decreases |s|
  {
    if s == [] then [""]
    else
      var rest := Split(s[1..]);
      if s[0] == ',' then [""] + rest
      else [[s[0]] + rest[0]] + rest[1..]
  }

  /** `",".join(parts)`. */
  function Join(parts: seq<string>): string
    requires |parts| >= 1
  {
    if |parts| == 1 then parts[0] else parts[0] + "," + Join(parts[1..])
  }

  /** Splitting loses nothing: joining the pieces gives the setting back. */
  lemma {:induction false} JoinSplit(s: string)
    ensures Join(Split(s)) == s
    decreases |s|
  {
    if s != [] {
      var rest := Split(s[1..]);
      JoinSplit(s[1..]);
      if s[0] == ',' {
        assert ([""] + rest)[1..] == rest;
        assert s == "," + s[1..];
      } else {
        var parts := [[s[0]] + rest[0]] + rest[1..];
        if |rest| == 1 {
          assert s == [s[0]] + rest[0];
        } else {
          assert parts[1..] == rest[1..];
          assert Join(rest) == rest[0] + "," + Join(rest[1..]);
          assert s == [s[0]] + s[1..];
          assert Join(parts) == [s[0]] + (rest[0] + "," + Join(rest[1..]));
        }
      }
    }
  }

  /** Splitting a piece without commas followed by anything. */
  lemma {:induction false} SplitAfterPiece(w: string, t: string)
    requires ',' !in w
    ensures Split(w + t) == [w + Split(t)[0]] + Split(t)[1..]
    decreases |w|
  {
    if w != [] {
      SplitAfterPiece(w[1..], t);
      assert (w + t)[0] == w[0];
      assert (w + t)[1..] == w[1..] + t;
      assert [w[0]] + (w[1..] + Split(t)[0]) == w + Split(t)[0];
    } else {
      var parts := Split(t);
      assert w + t == t && w + parts[0] == parts[0];
      assert parts == [parts[0]] + parts[1..];
    }
  }

  /** Joining comma-free pieces and splitting again gives the pieces back. */
  lemma {:induction false} SplitJoin(parts: seq<string>)
    requires |parts| >= 1
    requires forall i :: 0 <= i < |parts| ==> ',' !in parts[i]
    ensures Split(Join(parts)) == parts
  {
    if |parts| == 1 {
      SplitAfterPiece(parts[0], "");
      assert parts[0] + "" == parts[0];
    } else {
      var tail := Join(parts[1..]);
      SplitJoin(parts[1..]);
      SplitAfterPiece(parts[0], "," + tail);
      assert Split("," + tail) == [""] + Split(tail) by {
        assert ("," + tail)[1..] == tail;
      }
      assert parts[0] + "," + tail == parts[0] + ("," + tail);
      assert parts[0] + "" == parts[0];
      assert parts == [parts[0]] + parts[1..];
    }
  }

  /** The allow-list `os.environ.get("CORS_ORIGINS", default).split(",")`. */
  function AllowList(setting: Option<string>): (origins: seq<string>)
    ensures |origins| >= 1
    ensures forall i :: 0 <= i < |origins| ==> ',' !in origins[i]
    ensures Join(origins) == (if setting.Some? then setting.value else DefaultOrigins)
  {
    var s := if setting.Some? then setting.value else DefaultOrigins;
    JoinSplit(s);
    Split(s)
  }

  /** Without the setting, the allow-list is the single default origin. */
  lemma DefaultAllowList()
    ensures AllowList(None) == [DefaultOrigins]
  {
    SplitJoin([DefaultOrigins]);
  }

  /** A header takes part only when it is present and non-empty (Python
      truthiness of `referer` / `origin`). */
  predicate Present(header: Option<string>): (b: bool)
    ensures b <==> header != None && header != Some("")
  {
    header.Some? && header.value != ""
  }

  predicate HeaderMatches(header: Option<string>, domain: string) {
    Present(header) && StartsWith(header.value, domain)
  }

  /** The generator's element for one allow-list entry. */
  predicate EntryAccepts(referer: Option<string>, origin: Option<string>, domain: string) {
    HeaderMatches(referer, domain) || HeaderMatches(origin, domain)
  }

  /** The `any(...)` over the allow-list, entry by entry in list order. */
  function Accepts(referer: Option<string>, origin: Option<string>, origins: seq<string>): (ok: bool)
    ensures origins == [] ==> !ok
  {
    if origins == [] then false
    else EntryAccepts(referer, origin, origins[0]) || Accepts(referer, origin, origins[1..])
  }

  /** A request is accepted exactly when some entry accepts it. */
  lemma {:induction false} AcceptsIffSomeEntry(referer: Option<string>, origin: Option<string>, origins: seq<string>)
    ensures Accepts(referer, origin, origins) <==>
      exists i :: 0 <= i < |origins| && EntryAccepts(referer, origin, origins[i])
  {
    if origins != [] {
      AcceptsIffSomeEntry(referer, origin, origins[1..]);
      if Accepts(referer, origin, origins) && !EntryAccepts(referer, origin, origins[0]) {
        var j :| 0 <= j < |origins[1..]| && EntryAccepts(referer, origin, origins[1..][j]);
        assert EntryAccepts(referer, origin, origins[j + 1]);
      }
      if exists i :: 0 <= i < |origins| && EntryAccepts(referer, origin, origins[i]) {
        var i :| 0 <= i < |origins| && EntryAccepts(referer, origin, origins[i]);
        if i > 0 {
          assert origins[1..][i - 1] == origins[i];
        }
      }
    }
  }

  /** The same in terms of the two headers: accepted exactly when a
      non-empty Referer or a non-empty Origin starts with some entry. */
  lemma {:induction false} AcceptsIffSomePrefix(referer: Option<string>, origin: Option<string>, origins: seq<string>)
    ensures Accepts(referer, origin, origins) <==>
      (exists i :: 0 <= i < |origins| && HeaderMatches(referer, origins[i])) ||
      (exists i :: 0 <= i < |origins| && HeaderMatches(origin, origins[i]))
  {
    AcceptsIffSomeEntry(referer, origin, origins);
  }

  /** With neither header present (or both empty) nothing is accepted,
      whatever the allow-list. */
  lemma {:induction false} NoHeaderIsRejected(referer: Option<string>, origin: Option<string>, origins: seq<string>)
    requires !Present(referer) && !Present(origin)
    ensures !Accepts(referer, origin, origins)
  {
    AcceptsIffSomeEntry(referer, origin, origins);
  }

  /** An empty entry is a prefix of everything: it accepts every request
      that carries a non-empty Referer or Origin. */
  lemma {:induction false} EmptyEntryAcceptsAll(referer: Option<string>, origin: Option<string>, origins: seq<string>)
    requires "" in origins
    requires Present(referer) || Present(origin)
    ensures Accepts(referer, origin, origins)
  {
    var i :| 0 <= i < |origins| && origins[i] == "";
    assert EntryAccepts(referer, origin, origins[i]);
    AcceptsIffSomeEntry(referer, origin, origins);
  }

  /** Setting CORS_ORIGINS to the empty string yields the allow-list `[""]`,
      which accepts every request with a non-empty Referer or Origin. */
  lemma {:induction false} EmptySettingAcceptsAll(referer: Option<string>, origin: Option<string>)
    requires Present(referer) || Present(origin)
    ensures AllowList(Some("")) == [""]
    ensures Accepts(referer, origin, AllowList(Some("")))
  {
    EmptyEntryAcceptsAll(referer, origin, [""]);
  }

  /** Matching is by string prefix, not by host: a look-alike host that
      merely extends an allowed origin is accepted, while an unrelated one
      is not. */
  lemma PrefixIsNotHost()
    ensures Accepts(Some("https://good.com.evil.com"), None, ["https://good.com"])
    ensures Accepts(Some("https://good.com/page"), None, ["https://good.com"])
    ensures !Accepts(Some("https://evil.com"), None, ["https://good.com"])
  {
    var evil := "https://good.com.evil.com";
    assert evil[..16] == "https://good.com";
    var page := "https://good.com/page";
    assert page[..16] == "https://good.com";
    var other := "https://evil.com";
    assert other[8] != "https://good.com"[8];
  }
}
