/** The key of a route: tenant, host and device joined by slashes, and what it tells of them. */
module RouteKeys {
  import opened Text

  const SLASH := "/"

  /** deviceKey. */
  function RouteKey(tenant: string, host: string, device: string): string {
    tenant + SLASH + Tail(host, device)
  }

  function Tail(host: string, device: string): string {
    host + SLASH + device
  }

  predicate SlashFree(s: string) {
    '/' !in s
  }

  predicate Fits(s: string) {
    |Utf8(s)| <= MAX_IDENTIFIER_BYTES
  }

  /** What sessionFromRequest demands of an identifier. */
  predicate Name(s: string) {
    s != "" && Fits(s)
  }

  lemma SplitAtSlash(a: string, x: string, b: string, y: string)
    requires SlashFree(a) && SlashFree(b) && a + SLASH + x == b + SLASH + y
    ensures a == b && x == y
  {
    var s, r := a + SLASH + x, b + SLASH + y;
    assert s[|a|] == '/' && r[|b|] == '/';
    assert forall i :: 0 <= i < |a| ==> s[i] == a[i];
    assert forall i :: 0 <= i < |b| ==> r[i] == b[i];
    assert |a| == |b|;
    assert s[..|a|] == a && r[..|b|] == b && s[|a| + 1..] == x && r[|b| + 1..] == y;
  }

  /** A key tells its tenant, as long as tenants hold no slash. */
  lemma KeyTellsTenant(t: string, h: string, d: string, t': string, h': string, d': string)
    requires SlashFree(t) && SlashFree(t') && RouteKey(t, h, d) == RouteKey(t', h', d')
    ensures t == t' && Tail(h, d) == Tail(h', d')
  {
    SplitAtSlash(t, Tail(h, d), t', Tail(h', d'));
  }

  // ----- other ways to cut a tail -----

  /** No slash but the joining one cuts host and device into two names: one in the host,
      past its first character, would leave too long a device, and one in the device, before
      its last character, too long a host. */
  predicate Clean(h: string, d: string) {
    && (forall i :: 1 <= i < |h| && h[i] == '/' ==> !Fits(Tail(h[i + 1..], d)))
    && (forall i :: 0 <= i < |d| - 1 && d[i] == '/' ==> !Fits(Tail(h, d[..i])))
  }

  /** Two tails that agree and are cut apart: the earlier cut is a slash of the later host. */
  lemma EarlierCut(h: string, d: string, h': string, d': string)
    requires Tail(h, d) == Tail(h', d') && |h'| < |h|
    ensures h[|h'|] == '/' && h' == h[..|h'|] && d' == Tail(h[|h'| + 1..], d)
  {
    var s, n := Tail(h, d), |h'|;
    assert s[n] == '/' && s[n] == h[n];
    assert s[..n] == h' && s[..n] == h[..n];
    assert s[n + 1..] == d' && s[n + 1..] == h[n + 1..] + SLASH + d;
  }

  lemma LaterCut(h: string, d: string, h': string, d': string)
    requires Tail(h, d) == Tail(h', d') && |h| < |h'|
    ensures var i := |h'| - |h| - 1;
            i < |d| && d[i] == '/' && d' == d[i + 1..] && h' == Tail(h, d[..i])
  {
    EarlierCut(h', d', h, d);
    var i := |h'| - |h| - 1;
    assert d == Tail(h'[|h| + 1..], d');
    assert d[i] == '/' && d[i + 1..] == d' && d[..i] == h'[|h| + 1..];
    assert h' == h'[..|h|] + [h'[|h|]] + h'[|h| + 1..];
  }

  lemma SameCut(h: string, d: string, h': string, d': string)
    requires Tail(h, d) == Tail(h', d') && |h| == |h'|
    ensures h == h' && d == d'
  {
    assert Tail(h, d)[..|h|] == h && Tail(h', d')[..|h|] == h';
    assert Tail(h, d)[|h| + 1..] == d && Tail(h', d')[|h| + 1..] == d';
  }

  lemma CleanTailIsUnique(h: string, d: string, h': string, d': string)
    requires Clean(h, d) && Name(h') && Name(d') && Tail(h, d) == Tail(h', d')
    ensures h == h' && d == d'
  {
    if |h'| < |h| {
      EarlierCut(h, d, h', d');
    } else if |h| < |h'| {
      LaterCut(h, d, h', d');
    } else {
      SameCut(h, d, h', d');
    }
  }

  lemma PlainIsValid(s: string)
    requires Name(s) && !HasSpace(s)
    ensures ValidIdentifier(s)
  {
    assert !IsSpace(s[0]) && !IsSpace(s[|s| - 1]);
    TrimSpaceIsTrimmed(s);
  }

  lemma TailHasNoSpace(h: string, d: string)
    requires !HasSpace(h) && !HasSpace(d)
    ensures !HasSpace(Tail(h, d))
  {
    var s := Tail(h, d);
    forall i | 0 <= i < |s| ensures !IsSpace(s[i]) {
      assert s[i] == if i < |h| then h[i] else if i == |h| then '/' else d[i - |h| - 1];
    }
  }

  lemma TailAssociates(a: string, b: string, c: string)
    ensures Tail(a, Tail(b, c)) == Tail(Tail(a, b), c)
  {
  }

  lemma CutAt(s: string, i: nat)
    requires i < |s| && s[i] == '/'
    ensures s == Tail(s[..i], s[i + 1..])
  {
  }

  lemma CutHost(h: string, d: string, i: nat)
    requires ValidIdentifier(h) && ValidIdentifier(d) && 1 <= i < |h| && h[i] == '/' && Fits(Tail(h[i + 1..], d))
    ensures ValidIdentifier(h[..i]) && ValidIdentifier(Tail(h[i + 1..], d))
    ensures Tail(h[..i], Tail(h[i + 1..], d)) == Tail(h, d)
  {
    PrefixFits(h, i);
    TailHasNoSpace(h[i + 1..], d);
    PlainIsValid(h[..i]);
    PlainIsValid(Tail(h[i + 1..], d));
    CutAt(h, i);
    TailAssociates(h[..i], h[i + 1..], d);
  }

  lemma CutDevice(h: string, d: string, i: nat)
    requires ValidIdentifier(h) && ValidIdentifier(d) && i < |d| - 1 && d[i] == '/' && Fits(Tail(h, d[..i]))
    ensures ValidIdentifier(Tail(h, d[..i])) && ValidIdentifier(d[i + 1..])
    ensures Tail(Tail(h, d[..i]), d[i + 1..]) == Tail(h, d)
  {
    SuffixFits(d, i + 1);
    TailHasNoSpace(h, d[..i]);
    PlainIsValid(Tail(h, d[..i]));
    PlainIsValid(d[i + 1..]);
    CutAt(d, i);
    TailAssociates(h, d[..i], d[i + 1..]);
  }

  /** The other device: valid identifiers with the same tail. */
  lemma OtherCut(h: string, d: string) returns (h': string, d': string)
    requires ValidIdentifier(h) && ValidIdentifier(d) && !Clean(h, d)
    ensures ValidIdentifier(h') && ValidIdentifier(d') && h' != h && Tail(h', d') == Tail(h, d)
  {
    if i :| 1 <= i < |h| && h[i] == '/' && Fits(Tail(h[i + 1..], d)) {
      CutHost(h, d, i);
      h', d' := h[..i], Tail(h[i + 1..], d);
    } else {
      var i :| 0 <= i < |d| - 1 && d[i] == '/' && Fits(Tail(h, d[..i]));
      CutDevice(h, d, i);
      h', d' := Tail(h, d[..i]), d[i + 1..];
    }
  }

  lemma PrefixFits(s: string, i: nat)
    requires Fits(s) && i <= |s|
    ensures Fits(s[..i])
  {
    assert s == s[..i] + s[i..];
    Utf8Concat(s[..i], s[i..]);
  }

  lemma SuffixFits(s: string, i: nat)
    requires Fits(s) && i <= |s|
    ensures Fits(s[i..])
  {
    assert s == s[..i] + s[i..];
    Utf8Concat(s[..i], s[i..]);
  }

  /** No other device of the relay can have this key. */
  ghost predicate Unshared(t: string, h: string, d: string) {
    forall t', h', d' :: SlashFree(t') && Name(h') && Name(d') && RouteKey(t', h', d') == RouteKey(t, h, d) ==>
      t' == t && h' == h && d' == d
  }

  /** A key determines its identifiers exactly when no other slash parts them into names. */
  lemma UnsharedMeansClean(t: string, h: string, d: string)
    requires SlashFree(t) && ValidIdentifier(h) && ValidIdentifier(d)
    ensures Unshared(t, h, d) <==> Clean(h, d)
  {
    if Clean(h, d) {
      forall t', h', d' | SlashFree(t') && Name(h') && Name(d') && RouteKey(t', h', d') == RouteKey(t, h, d)
        ensures t' == t && h' == h && d' == d
      {
        KeyTellsTenant(t, h, d, t', h', d');
        CleanTailIsUnique(h, d, h', d');
      }
    } else {
      var h', d' := OtherCut(h, d);
      assert RouteKey(t, h', d') == RouteKey(t, h, d);
    }
  }

  /** For identifiers that fit together in one, the condition is about slashes only: none in
      the host after its first character, none in the device before its last. */
  lemma ShortNamesClean(h: string, d: string)
    requires |Utf8(h)| + |Utf8(d)| < MAX_IDENTIFIER_BYTES
    ensures Clean(h, d) <==>
              && (forall i :: 1 <= i < |h| ==> h[i] != '/')
              && (forall i :: 0 <= i < |d| - 1 ==> d[i] != '/')
  {
    forall i | 1 <= i < |h| && h[i] == '/' ensures Fits(Tail(h[i + 1..], d)) {
      assert h == h[..i + 1] + h[i + 1..];
      Utf8Concat(h[..i + 1], h[i + 1..]);
      TailLength(h[i + 1..], d);
    }
    forall i | 0 <= i < |d| - 1 && d[i] == '/' ensures Fits(Tail(h, d[..i])) {
      assert d == d[..i] + d[i..];
      Utf8Concat(d[..i], d[i..]);
      TailLength(h, d[..i]);
    }
  }

  lemma TailLength(h: string, d: string)
    ensures |Utf8(Tail(h, d))| == |Utf8(h)| + 1 + |Utf8(d)|
  {
    Utf8Concat(h + SLASH, d);
    Utf8Concat(h, SLASH);
    assert SLASH[1..] == "";
    assert Utf8(SLASH) == Utf8Char('/') + Utf8("");
  }

  // ----- tenants -----

  function HexDigit(n: int): char
    requires 0 <= n < 16
  {
    if n < 10 then '0' + n as char else 'a' + (n - 10) as char
  }

  /** Go's %x of a byte slice. */
  function Hex(b: seq<byte>): string {
    if b == [] then "" else [HexDigit(b[0] / 16), HexDigit(b[0] % 16)] + Hex(b[1..])
  }

  /** The id the relay makes for a new tenant from sixteen random bytes. */
  function TenantId(r: seq<byte>): string
    requires |r| == 16
  {
    var u := r[6 := r[6] % 16 + 64][8 := r[8] % 64 + 128];
    Hex(u[..4]) + "-" + Hex(u[4..6]) + "-" + Hex(u[6..8]) + "-" + Hex(u[8..10]) + "-" + Hex(u[10..])
  }

  lemma {:induction false} HexIsPlain(b: seq<byte>)
    ensures SlashFree(Hex(b)) && |Hex(b)| == 2 * |b|
  {
    if b != [] {
      HexIsPlain(b[1..]);
      assert HexDigit(b[0] / 16) != '/' && HexDigit(b[0] % 16) != '/';
    }
  }

  /** Tenant ids hold no slash. */
  lemma TenantIdIsSlashFree(r: seq<byte>)
    requires |r| == 16
    ensures SlashFree(TenantId(r)) && |TenantId(r)| == 36
  {
    var u := r[6 := r[6] % 16 + 64][8 := r[8] % 64 + 128];
    HexIsPlain(u[..4]);
    HexIsPlain(u[4..6]);
    HexIsPlain(u[6..8]);
    HexIsPlain(u[8..10]);
    HexIsPlain(u[10..]);
  }
}
