/**
 * Parsing of the configured session store key "name.key" (csrf.go lines 53-58):
 * `strings.SplitN(storeKey, ".", 2)`, and the defaults "default" / "csrf_token"
 * when the split does not give two parts.
 */
module StoreKey {
  import opened Wrappers

  const DefaultSessionName := "default"
  const DefaultSessionKey := "csrf_token"

  /** Position of the first `c` in `s`, as `strings.Index` finds it. */
  function IndexOf(s: string, c: char): (r: Option<nat>)
    ensures r.None? <==> c !in s
    ensures r.Some? ==> r.value < |s| && s[r.value] == c && c !in s[..r.value]
  {
    if |s| == 0 then None
    else if s[0] == c then Some(0)
    else
      match IndexOf(s[1..], c)
      case None => None
      case Some(i) =>
        assert s[..i + 1] == [s[0]] + s[1..][..i];
        Some(i + 1)
  }

  /**
   * `strings.SplitN(s, sep, 2)` for a one-character separator: the whole of `s`
   * when `sep` does not occur, otherwise the part before the first `sep` and
   * everything after it.
   */
  function SplitN2(s: string, sep: char): (parts: seq<string>)
    ensures |parts| == 1 || |parts| == 2
    ensures |parts| == 2 <==> sep in s
    ensures |parts| == 1 ==> parts[0] == s
    ensures |parts| == 2 ==> parts[0] + [sep] + parts[1] == s && sep !in parts[0]
  {
    match IndexOf(s, sep)
    case None => [s]
    case Some(i) =>
      assert s == s[..i] + [sep] + s[i + 1..];
      [s[..i], s[i + 1..]]
  }

  /**
   * The session name and the key within that session where the expected token
   * is stored. A key without a dot falls back to ("default", "csrf_token").
   */
  function ParseStoreKey(storeKey: string): (r: (string, string))
    ensures '.' in storeKey ==> r.0 + "." + r.1 == storeKey && '.' !in r.0
    ensures '.' !in storeKey ==> r == (DefaultSessionName, DefaultSessionKey)
  {
    var split := SplitN2(storeKey, '.');
    var parts := if |split| != 2 then [DefaultSessionName, DefaultSessionKey] else split;
    (parts[0], parts[1])
  }

  /**
   * Parsing inverts joining: a name without a dot, a dot, and any rest
   * (which may hold further dots or be empty) parse back to that name and rest.
   */
  lemma {:induction false} ParseJoined(name: string, rest: string)
    requires '.' !in name
    ensures ParseStoreKey(name + "." + rest) == (name, rest)
  {
    var key := name + "." + rest;
    assert key[|name|] == '.';
    var (n, k) := ParseStoreKey(key);
    assert n + "." + k == key && '.' !in n;
    // n cannot be shorter than name (name has no dot) nor longer (n has none at |name|)
    if |n| < |name| {
      assert false;
    } else if |n| > |name| {
      assert false;
    }
    assert n == key[..|name|] == name;
    assert k == key[|name| + 1..] == rest;
  }

  /** The configured default "default.csrf_token" parses to the same pair as the fallback. */
  lemma DefaultStoreKeyParses()
    ensures ParseStoreKey("default.csrf_token") == (DefaultSessionName, DefaultSessionKey)
  {
    assert "default" + "." + "csrf_token" == "default.csrf_token";
    ParseJoined("default", "csrf_token");
  }

  /** Only the first dot splits: "a.b.c" gives ("a", "b.c"). */
  lemma LaterDotsStayInKey()
    ensures ParseStoreKey("a.b.c") == ("a", "b.c")
  {
    assert "a" + "." + "b.c" == "a.b.c";
    ParseJoined("a", "b.c");
  }

  /** A trailing dot gives an empty session key. */
  lemma TrailingDotEmptyKey(name: string)
    requires '.' !in name
    ensures ParseStoreKey(name + ".") == (name, "")
  {
    ParseJoined(name, "");
    assert name + "." + "" == name + ".";
  }

  /** A leading dot gives an empty session name, which switches the check off. */
  lemma LeadingDotEmptyName(rest: string)
    ensures ParseStoreKey("." + rest) == ("", rest)
  {
    ParseJoined("", rest);
    assert "" + "." + rest == "." + rest;
  }
}
