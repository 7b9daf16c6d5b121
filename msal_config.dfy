/**
 * The environment-based sign-in settings: each setting is read from the
 * process environment with a default, the scope list is the raw value split
 * on commas, and the tenant allow-list is the comma-separated segments,
 * trimmed, with blank segments dropped.
 *
 * The environment is a parameter (a map from variable name to value), and
 * Python's `str.split(",")` and `str.strip()` are modelled on code points.
 */
module MsalConfig {

  // ---------------------------------------------------------------------------
  // str.strip()
  // ---------------------------------------------------------------------------

  /** Python's `str.isspace()` on one code point: tab to carriage return,
      the four information separators and space, NEL, no-break space, the
      Ogham space mark, the en-quad to hair space block, the line and
      paragraph separators, the narrow no-break and medium mathematical
      spaces, and the ideographic space. `strip()` with no argument removes
      exactly these. */
  predicate IsSpace(c: char)
  {
    || '\t' <= c <= '\r'
    || '\U{001C}' <= c <= ' '
    || c == '\U{0085}' || c == '\U{00A0}' || c == '\U{1680}'
    || '\U{2000}' <= c <= '\U{200A}'
    || c == '\U{2028}' || c == '\U{2029}' || c == '\U{202F}' || c == '\U{205F}'
    || c == '\U{3000}'
  }

  predicate AllSpace(s: string)
  {
    forall k :: 0 <= k < |s| ==> IsSpace(s[k])
  }

  /** Neither the first nor the last character is whitespace. */
  predicate Trimmed(s: string)
  {
    s == [] || (!IsSpace(s[0]) && !IsSpace(s[|s| - 1]))
  }

  /** The length of the run of whitespace that starts `s`. */
  function LeadingSpace(s: string): (n: nat)
    ensures n <= |s|
    ensures AllSpace(s[..n])
    ensures n < |s| ==> !IsSpace(s[n])
  {
    if |s| > 0 && IsSpace(s[0]) then 1 + LeadingSpace(s[1..]) else 0
  }

  /** Where the run of whitespace that ends `s` begins. */
  function TrailingStart(s: string): (n: nat)
    ensures n <= |s|
    ensures AllSpace(s[n..])
    ensures n > 0 ==> !IsSpace(s[n - 1])
  {
    if |s| > 0 && IsSpace(s[|s| - 1]) then TrailingStart(s[..|s| - 1]) else |s|
  }

  lemma AllSpaceConcat(a: string, b: string)
    ensures AllSpace(a) && AllSpace(b) ==> AllSpace(a + b)
  {
    if AllSpace(a) && AllSpace(b) {
      forall k | 0 <= k < |a + b| ensures IsSpace((a + b)[k]) {
        if k >= |a| { assert (a + b)[k] == b[k - |a|]; }
      }
    }
  }

  /** `s.strip()`: the slice of `s` left after removing the whitespace at
      both ends. */
  function Strip(s: string): (r: string)
    ensures Trimmed(r)
  {
    var t := s[LeadingSpace(s)..];
    assert t != [] ==> t[0] == s[LeadingSpace(s)];
    t[..TrailingStart(t)]
  }

  /** The strip is the middle of `s`: it starts after the leading
      whitespace and only whitespace follows it. */
  lemma StripIsMiddle(s: string)
    ensures LeadingSpace(s) + |Strip(s)| <= |s|
    ensures Strip(s) == s[LeadingSpace(s)..LeadingSpace(s) + |Strip(s)|]
    ensures AllSpace(s[LeadingSpace(s) + |Strip(s)|..])
  {
    var i := LeadingSpace(s);
    var t := s[i..];
    var n := TrailingStart(t);
    assert Strip(s) == t[..n];
    SliceOfSlice(s, i, n);
    assert AllSpace(t[n..]);
  }

  lemma SliceOfSlice(s: string, i: nat, n: nat)
    requires i + n <= |s|
    ensures s[i..][..n] == s[i..i + n]
    ensures s[i..][n..] == s[i + n..]
  {
  }

  /** The strip is empty exactly when `s` is all whitespace. */
  lemma StripBlank(s: string)
    ensures Strip(s) == [] <==> AllSpace(s)
  {
    var i := LeadingSpace(s);
    var t := s[i..];
    if i == |s| {
      assert s == s[..i] + t;
      AllSpaceConcat(s[..i], t);
    } else {
      assert t[0] == s[i];
    }
  }

  /** A trimmed string is its own strip. */
  lemma StripTrimmed(s: string)
    requires Trimmed(s)
    ensures Strip(s) == s
  {
    if s != [] {
      assert LeadingSpace(s) == 0;
      assert TrailingStart(s) == |s|;
    }
  }

  /** Stripping twice is stripping once. */
  lemma StripIdempotent(s: string)
    ensures Strip(Strip(s)) == Strip(s)
  {
    StripTrimmed(Strip(s));
  }

  // ---------------------------------------------------------------------------
  // str.split(sep)
  // ---------------------------------------------------------------------------

  /** The number of occurrences of `c` in `s`. */
  function Count(s: string, c: char): nat
  {
    if s == [] then 0 else (if s[0] == c then 1 else 0) + Count(s[1..], c)
  }

  /** `s.split(sep)` for a one-character separator: the maximal pieces
      between separators, empty pieces included, never an empty list. */
  function Split(s: string, sep: char): (parts: seq<string>)
    ensures |parts| == Count(s, sep) + 1
    ensures forall i :: 0 <= i < |parts| ==> sep !in parts[i]
  {
    if s == [] then [""]
    else
      var rest := Split(s[1..], sep);
      if s[0] == sep then [""] + rest
      else [[s[0]] + rest[0]] + rest[1..]
  }

  /** `sep.join(parts)`. */
  function Join(parts: seq<string>, sep: char): string
    requires |parts| > 0
  {
    if |parts| == 1 then parts[0] else parts[0] + [sep] + Join(parts[1..], sep)
  }

  /** Joining the pieces of a split restores the input. */
  lemma {:induction false} JoinSplit(s: string, sep: char)
    ensures Join(Split(s, sep), sep) == s
  {
    if s != [] {
      var rest := Split(s[1..], sep);
      JoinSplit(s[1..], sep);
      if s[0] == sep {
        assert Split(s, sep) == [""] + rest;
        assert ([""] + rest)[1..] == rest;
      } else {
        var parts := [[s[0]] + rest[0]] + rest[1..];
        assert Split(s, sep) == parts;
        if |rest| == 1 {
          assert Join(parts, sep) == [s[0]] + rest[0];
        } else {
          assert parts[1..] == rest[1..];
          assert Join(parts, sep) == [s[0]] + rest[0] + [sep] + Join(rest[1..], sep);
        }
      }
    }
  }

  /** A string without the separator splits into itself alone. */
  lemma {:induction false} SplitNoSeparator(s: string, sep: char)
    requires sep !in s
    ensures Split(s, sep) == [s]
  {
    if s != [] {
      SplitNoSeparator(s[1..], sep);
      assert [s[0]] + s[1..] == s;
    }
  }

  /** A separator-free prefix followed by a separator becomes the first piece. */
  lemma {:induction false} SplitAfterPiece(a: string, sep: char, b: string)
    requires sep !in a
    ensures Split(a + [sep] + b, sep) == [a] + Split(b, sep)
  {
    if a == [] {
      assert [sep] + b == (a + [sep] + b);
      assert ([sep] + b)[1..] == b;
    } else {
      var rest := Split(a[1..] + [sep] + b, sep);
      assert (a + [sep] + b)[0] == a[0] && (a + [sep] + b)[1..] == a[1..] + [sep] + b;
      SplitAfterPiece(a[1..], sep, b);
      assert rest == [a[1..]] + Split(b, sep);
      assert rest[0] == a[1..] && rest[1..] == Split(b, sep);
      assert [a[0]] + a[1..] == a;
    }
  }

  /** Splitting a join of separator-free pieces gives the pieces back. */
  lemma {:induction false} SplitJoin(parts: seq<string>, sep: char)
    requires |parts| > 0
    requires forall i :: 0 <= i < |parts| ==> sep !in parts[i]
    ensures Split(Join(parts, sep), sep) == parts
  {
    if |parts| == 1 {
      SplitNoSeparator(parts[0], sep);
    } else {
      SplitJoin(parts[1..], sep);
      SplitAfterPiece(parts[0], sep, Join(parts[1..], sep));
      assert [parts[0]] + parts[1..] == parts;
    }
  }

  // ---------------------------------------------------------------------------
  // The tenant allow-list: [t.strip() for t in raw.split(",") if t.strip()]
  // ---------------------------------------------------------------------------

  /** `[t.strip() for t in pieces]`. */
  function StripAll(pieces: seq<string>): (r: seq<string>)
    ensures |r| == |pieces|
    ensures forall i :: 0 <= i < |pieces| ==> r[i] == Strip(pieces[i])
  {
    if pieces == [] then [] else [Strip(pieces[0])] + StripAll(pieces[1..])
  }

  /** `[x for x in xs if x]`. */
  function DropEmpty(xs: seq<string>): (r: seq<string>)
    ensures |r| <= |xs|
    ensures forall i :: 0 <= i < |r| ==> r[i] != "" && r[i] in xs
  {
    if xs == [] then []
    else
      var rest := DropEmpty(xs[1..]);
      assert forall x :: x in xs[1..] ==> x in xs;
      (if xs[0] != "" then [xs[0]] else []) + rest
  }

  /** The stripped non-blank pieces, in order: the allow-list comprehension
      `[t.strip() for t in pieces if t.strip()]`. */
  function KeepNonBlank(pieces: seq<string>): (r: seq<string>)
    ensures |r| <= |pieces|
    ensures forall i :: 0 <= i < |r| ==> r[i] != "" && Trimmed(r[i])
  {
    DropEmpty(StripAll(pieces))
  }

  /** `ALLOWED_TENANTS` computed from the raw environment value: at most
      one tenant per comma-separated segment, each non-empty and trimmed. */
  function AllowedTenants(raw: string): (r: seq<string>)
    ensures |r| <= Count(raw, ',') + 1
    ensures forall i :: 0 <= i < |r| ==> r[i] != "" && Trimmed(r[i])
  {
    KeepNonBlank(Split(raw, ','))
  }

  /** `SCOPES` computed from the raw environment value: one scope more than
      there are commas, and no trimming, so joining them with commas gives
      the raw value back. */
  function Scopes(raw: string): (r: seq<string>)
    ensures |r| == Count(raw, ',') + 1
    ensures Join(r, ',') == raw
  {
    JoinSplit(raw, ',');
    Split(raw, ',')
  }

  /** Each index moved one place to the right. */
  function Shift(idx: seq<nat>): (r: seq<nat>)
    ensures |r| == |idx| && forall k :: 0 <= k < |idx| ==> r[k] == idx[k] + 1
  {
    seq(|idx|, k requires 0 <= k < |idx| => idx[k] + 1)
  }

  /** `idx` lists, in increasing order, the positions of `xs` that survive
      into `kept`, and every non-empty position survives. */
  ghost predicate SelectsNonEmpty(xs: seq<string>, kept: seq<string>, idx: seq<nat>)
  {
    && |idx| == |kept|
    && (forall k :: 0 <= k < |idx| ==> idx[k] < |xs| && kept[k] == xs[idx[k]])
    && (forall k, l :: 0 <= k < l < |idx| ==> idx[k] < idx[l])
    && (forall j :: 0 <= j < |xs| && xs[j] != "" ==> j in idx)
  }

  /** The positions chosen for `xs` given those `tail` chosen for `xs[1..]`. */
  function ConsIndices(xs: seq<string>, tail: seq<nat>): seq<nat>
    requires xs != []
  {
    if xs[0] != "" then [0] + Shift(tail) else Shift(tail)
  }

  lemma ConsValues(xs: seq<string>, tail: seq<nat>)
    requires xs != []
    requires |tail| == |DropEmpty(xs[1..])|
    requires forall k :: 0 <= k < |tail| ==> tail[k] < |xs| - 1 && DropEmpty(xs[1..])[k] == xs[1..][tail[k]]
    ensures |ConsIndices(xs, tail)| == |DropEmpty(xs)|
    ensures forall k :: 0 <= k < |ConsIndices(xs, tail)| ==>
              ConsIndices(xs, tail)[k] < |xs| && DropEmpty(xs)[k] == xs[ConsIndices(xs, tail)[k]]
  {
    var rest := DropEmpty(xs[1..]);
    ShiftSelects(xs, rest, tail);
    if xs[0] != "" {
      assert DropEmpty(xs) == [xs[0]] + rest;
      PrependSelects(xs, rest, Shift(tail));
    } else {
      assert DropEmpty(xs) == rest;
    }
  }

  /** Positions `tail` that select `rest` from `xs[1..]`, shifted by one,
      select `rest` from `xs`. */
  lemma ShiftSelects<T>(xs: seq<T>, rest: seq<T>, tail: seq<nat>)
    requires xs != [] && |tail| == |rest|
    requires forall k :: 0 <= k < |tail| ==> tail[k] < |xs| - 1 && rest[k] == xs[1..][tail[k]]
    ensures forall k :: 0 <= k < |tail| ==> Shift(tail)[k] < |xs| && rest[k] == xs[Shift(tail)[k]]
  {
    forall k | 0 <= k < |tail| ensures Shift(tail)[k] < |xs| && rest[k] == xs[Shift(tail)[k]] {
      assert xs[1..][tail[k]] == xs[tail[k] + 1];
    }
  }

  /** Position 0 followed by positions that select `rest` from `xs` selects
      `xs[0]` followed by `rest`. */
  lemma PrependSelects<T>(xs: seq<T>, rest: seq<T>, idx: seq<nat>)
    requires xs != [] && |idx| == |rest|
    requires forall k :: 0 <= k < |idx| ==> idx[k] < |xs| && rest[k] == xs[idx[k]]
    ensures forall k :: 0 <= k < |idx| + 1 ==> ([0] + idx)[k] < |xs| && ([xs[0]] + rest)[k] == xs[([0] + idx)[k]]
  {
    forall k | 0 <= k < |idx| + 1 ensures ([0] + idx)[k] < |xs| && ([xs[0]] + rest)[k] == xs[([0] + idx)[k]] {
      if k > 0 {
        assert ([0] + idx)[k] == idx[k - 1] && ([xs[0]] + rest)[k] == rest[k - 1];
      }
    }
  }

  lemma ConsOrdered(xs: seq<string>, tail: seq<nat>)
    requires xs != []
    requires forall k, l :: 0 <= k < l < |tail| ==> tail[k] < tail[l]
    ensures forall k, l :: 0 <= k < l < |ConsIndices(xs, tail)| ==>
              ConsIndices(xs, tail)[k] < ConsIndices(xs, tail)[l]
  {
    var shifted := Shift(tail);
    assert forall k, l :: 0 <= k < l < |shifted| ==> shifted[k] < shifted[l] by {
      forall k, l | 0 <= k < l < |shifted| ensures shifted[k] < shifted[l] {
        assert shifted[k] == tail[k] + 1 && shifted[l] == tail[l] + 1;
      }
    }
    if xs[0] != "" {
      var idx := [0] + shifted;
      forall k, l | 0 <= k < l < |idx| ensures idx[k] < idx[l] {
        assert idx[l] == shifted[l - 1];
        if k > 0 { assert idx[k] == shifted[k - 1]; }
      }
    }
  }

  lemma ConsComplete(xs: seq<string>, tail: seq<nat>)
    requires xs != []
    requires forall j :: 0 <= j < |xs[1..]| && xs[1..][j] != "" ==> j in tail
    ensures forall j :: 0 <= j < |xs| && xs[j] != "" ==> j in ConsIndices(xs, tail)
  {
    var d := if xs[0] != "" then 1 else 0;
    var idx := ConsIndices(xs, tail);
    var shifted := Shift(tail);
    forall j | 0 <= j < |xs| && xs[j] != "" ensures j in idx {
      if j > 0 {
        assert xs[1..][j - 1] == xs[j];
        var k :| 0 <= k < |tail| && tail[k] == j - 1;
        assert idx[k + d] == shifted[k] == j;
      }
    }
  }

  lemma {:induction false} DropEmptyInOrder(xs: seq<string>) returns (idx: seq<nat>)
    ensures SelectsNonEmpty(xs, DropEmpty(xs), idx)
  {
    if xs == [] {
      idx := [];
    } else {
      var tail := DropEmptyInOrder(xs[1..]);
      ConsValues(xs, tail);
      ConsOrdered(xs, tail);
      ConsComplete(xs, tail);
      idx := ConsIndices(xs, tail);
    }
  }

  /** The allow-list is the stripped pieces in input order with the blank
      ones removed: the returned indices name, for each tenant and in
      increasing order, the piece it was stripped from, and every piece that
      is not blank is among them. */
  lemma KeepNonBlankInOrder(pieces: seq<string>) returns (idx: seq<nat>)
    ensures |idx| == |KeepNonBlank(pieces)|
    ensures forall k :: 0 <= k < |idx| ==>
              idx[k] < |pieces| && KeepNonBlank(pieces)[k] == Strip(pieces[idx[k]])
    ensures forall k, l :: 0 <= k < l < |idx| ==> idx[k] < idx[l]
    ensures forall j :: 0 <= j < |pieces| && Strip(pieces[j]) != "" ==> j in idx
  {
    idx := DropEmptyInOrder(StripAll(pieces));
  }

  lemma {:induction false} DropEmptyMembership(xs: seq<string>, t: string)
    ensures t in DropEmpty(xs) <==> t != "" && t in xs
  {
    if xs != [] {
      DropEmptyMembership(xs[1..], t);
      assert DropEmpty(xs) == (if xs[0] != "" then [xs[0]] else []) + DropEmpty(xs[1..]);
      assert xs == [xs[0]] + xs[1..];
    }
  }

  /** A string is on the allow-list exactly when it is the non-blank strip
      of one of the pieces. */
  lemma KeepNonBlankMembership(pieces: seq<string>, t: string)
    ensures t in KeepNonBlank(pieces) <==>
              t != "" && exists j :: 0 <= j < |pieces| && Strip(pieces[j]) == t
  {
    var xs := StripAll(pieces);
    DropEmptyMembership(xs, t);
    if t in xs {
      var j :| 0 <= j < |xs| && xs[j] == t;
      assert Strip(pieces[j]) == t;
    }
    if exists j :: 0 <= j < |pieces| && Strip(pieces[j]) == t {
      var j :| 0 <= j < |pieces| && Strip(pieces[j]) == t;
      assert xs[j] == t;
    }
  }

  lemma {:induction false} DropEmptyNone(xs: seq<string>)
    ensures DropEmpty(xs) == [] <==> forall j :: 0 <= j < |xs| ==> xs[j] == ""
  {
    if xs != [] {
      DropEmptyNone(xs[1..]);
      assert DropEmpty(xs) == (if xs[0] != "" then [xs[0]] else []) + DropEmpty(xs[1..]);
      if forall j :: 0 <= j < |xs| ==> xs[j] == "" {
        forall j | 0 <= j < |xs[1..]| ensures xs[1..][j] == "" {
          assert xs[1..][j] == xs[j + 1];
        }
      }
    }
  }

  /** The allow-list is empty exactly when every piece is blank. */
  lemma KeepNonBlankEmpty(pieces: seq<string>)
    ensures KeepNonBlank(pieces) == [] <==> forall j :: 0 <= j < |pieces| ==> AllSpace(pieces[j])
  {
    DropEmptyNone(StripAll(pieces));
    forall j | 0 <= j < |pieces| ensures Strip(pieces[j]) == [] <==> AllSpace(pieces[j]) {
      StripBlank(pieces[j]);
    }
  }

  /** A tenant is on the allow-list exactly when it is the non-blank strip
      of one comma-separated segment of the raw value (that every entry is
      non-empty and trimmed is the contract of `KeepNonBlank`). */
  lemma AllowedTenantsMembership(raw: string, t: string)
    ensures t in AllowedTenants(raw) <==> t != "" && t in StripAll(Split(raw, ','))
  {
    DropEmptyMembership(StripAll(Split(raw, ',')), t);
  }

  /** Writing a list of clean tenant ids comma-separated and parsing it back
      yields the same list. */
  lemma TenantListRoundTrip(tenants: seq<string>)
    requires |tenants| > 0
    requires forall i :: 0 <= i < |tenants| ==>
               tenants[i] != "" && Trimmed(tenants[i]) && ',' !in tenants[i]
    ensures AllowedTenants(Join(tenants, ',')) == tenants
  {
    SplitJoin(tenants, ',');
    KeepNonBlankClean(tenants);
  }

  lemma {:induction false} DropEmptyClean(xs: seq<string>)
    requires forall i :: 0 <= i < |xs| ==> xs[i] != ""
    ensures DropEmpty(xs) == xs
  {
    if xs != [] {
      DropEmptyClean(xs[1..]);
      assert [xs[0]] + xs[1..] == xs;
    }
  }

  lemma KeepNonBlankClean(pieces: seq<string>)
    requires forall i :: 0 <= i < |pieces| ==> pieces[i] != "" && Trimmed(pieces[i])
    ensures KeepNonBlank(pieces) == pieces
  {
    forall i | 0 <= i < |pieces| ensures Strip(pieces[i]) == pieces[i] {
      StripTrimmed(pieces[i]);
    }
    assert StripAll(pieces) == pieces;
    DropEmptyClean(pieces);
  }

  // ---------------------------------------------------------------------------
  // The settings
  // ---------------------------------------------------------------------------

  /** The settings read at import time. */
  datatype Config = Config(
    authority: string,
    scopes: seq<string>,
    redirectUri: string,
    appClientId: string,
    appClientSecret: string,
    allowedTenants: seq<string>)

  /** `os.getenv(name, default)`: a variable that is set, even to the empty
      string, wins over the default. */
  function GetEnv(env: map<string, string>, name: string, default: string): string
  {
    if name in env then env[name] else default
  }

  const DefaultAuthority: string := "https://login.microsoftonline.com/organizations"
  const DefaultScopes: string := "User.Read"
  const DefaultRedirectUri: string := "http://localhost:8501"

  /** The names of the environment variables read. */
  const ConfigVariables: set<string> := {
    "MSAL_AUTHORITY", "MSAL_SCOPES", "MSAL_REDIRECT_URI",
    "APP_CLIENT_ID", "APP_CLIENT_SECRET", "ALLOWED_TENANTS"
  }

  /** The settings read at import time. A variable that is set, even to
      the empty string, is used; an unset one gives its default. */
  function LoadConfig(env: map<string, string>): (c: Config)
    ensures c.authority == if "MSAL_AUTHORITY" in env then env["MSAL_AUTHORITY"] else DefaultAuthority
    ensures c.redirectUri == if "MSAL_REDIRECT_URI" in env then env["MSAL_REDIRECT_URI"] else DefaultRedirectUri
    ensures c.appClientId == if "APP_CLIENT_ID" in env then env["APP_CLIENT_ID"] else ""
    ensures c.appClientSecret == if "APP_CLIENT_SECRET" in env then env["APP_CLIENT_SECRET"] else ""
    ensures |c.scopes| == Count(GetEnv(env, "MSAL_SCOPES", DefaultScopes), ',') + 1
    ensures "MSAL_SCOPES" in env ==> Join(c.scopes, ',') == env["MSAL_SCOPES"]
    ensures "MSAL_SCOPES" !in env ==> c.scopes == ["User.Read"]
    ensures "ALLOWED_TENANTS" !in env ==> c.allowedTenants == []
    ensures forall i :: 0 <= i < |c.allowedTenants| ==> c.allowedTenants[i] != "" && Trimmed(c.allowedTenants[i])
  {
    SplitNoSeparator(DefaultScopes, ',');
    assert KeepNonBlank([""]) == [];
    Config(
      GetEnv(env, "MSAL_AUTHORITY", DefaultAuthority),
      Scopes(GetEnv(env, "MSAL_SCOPES", DefaultScopes)),
      GetEnv(env, "MSAL_REDIRECT_URI", DefaultRedirectUri),
      GetEnv(env, "APP_CLIENT_ID", ""),
      GetEnv(env, "APP_CLIENT_SECRET", ""),
      AllowedTenants(GetEnv(env, "ALLOWED_TENANTS", "")))
  }

  /** With none of the variables set, the settings are the defaults: the
      multi-tenant authority, the single scope `User.Read`, the local
      redirect, empty client credentials and an empty allow-list. */
  lemma DefaultConfig(env: map<string, string>)
    requires env.Keys !! ConfigVariables
    ensures LoadConfig(env) == Config(
              "https://login.microsoftonline.com/organizations", ["User.Read"],
              "http://localhost:8501", "", "", [])
  {
    SplitNoSeparator(DefaultScopes, ',');
    assert KeepNonBlank([""]) == [];
  }

  /** A set but empty tenant variable also gives an empty allow-list, while
      a set but empty scope variable gives one empty scope. */
  lemma EmptyVariables(env: map<string, string>)
    requires "ALLOWED_TENANTS" in env && env["ALLOWED_TENANTS"] == ""
    requires "MSAL_SCOPES" in env && env["MSAL_SCOPES"] == ""
    ensures LoadConfig(env).allowedTenants == []
    ensures LoadConfig(env).scopes == [""]
  {
    assert KeepNonBlank([""]) == [];
  }
}
