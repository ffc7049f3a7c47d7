/** Header lists and plain-object header records, as the Fetch standard and
    JavaScript treat them: enough to follow the headers of a response served
    again from the cache (lines 61-68 and 94-102 of the worker). */
module Headers {
  import opened Wrappers
  import opened Cors
  import opened Text

  /** Byte lower-casing of a header name. The Fetch standard lower-cases
      names in ASCII only, so unlike `toLowerCase` it leaves the Kelvin sign
      as it is. */
  function LowerName(n: string): string {
    seq(|n|, i requires 0 <= i < |n| => AsciiLower(n[i]))
  }

  predicate HasUpper(k: string) {
    exists i :: 0 <= i < |k| && IsAsciiUpper(k[i])
  }

  lemma LowerNameIdempotent(n: string)
    ensures LowerName(LowerName(n)) == LowerName(n)
    ensures !HasUpper(LowerName(n))
  {
  }

  /** A header list: (name, value) pairs in the order they were appended. */
  type HeaderList = seq<(string, string)>

  /** Joins two optional header values the way a header list combines
      repeated names. */
  function Combine(a: Option<string>, b: Option<string>): Option<string> {
    if a.None? then b else if b.None? then a else Some(a.value + ", " + b.value)
  }

  lemma CombineAssociative(a: Option<string>, b: Option<string>, c: Option<string>)
    ensures Combine(a, Combine(b, c)) == Combine(Combine(a, b), c)
  {
    if a.Some? && b.Some? && c.Some? {
      assert a.value + ", " + (b.value + ", " + c.value) == a.value + ", " + b.value + ", " + c.value;
    }
  }

  /** `headers.get(name)`: the values of every pair whose name equals `name`
      up to case, in order, joined with `", "`; none when there is no such
      pair. */
  function Get(h: HeaderList, name: string): Option<string> {
    if h == [] then None
    else
      var rest := Get(h[1..], name);
      if LowerName(h[0].0) != LowerName(name) then rest
      else Combine(Some(h[0].1), rest)
  }

  /** Reading a concatenated list combines what each part gives. */
  lemma {:induction false} GetAppend(a: HeaderList, b: HeaderList, name: string)
    ensures Get(a + b, name) == Combine(Get(a, name), Get(b, name))
    decreases |a|
  {
    if a == [] {
      assert a + b == b;
    } else {
      assert (a + b)[0] == a[0] && (a + b)[1..] == a[1..] + b;
      GetAppend(a[1..], b, name);
      CombineAssociative(Some(a[0].1), Get(a[1..], name), Get(b, name));
    }
  }

  /** The pairs of `h` whose name is not `lower` up to case. */
  function Without(h: HeaderList, lower: string): (r: HeaderList)
    ensures |r| <= |h|
  {
    if h == [] then []
    else if LowerName(h[0].0) == lower then Without(h[1..], lower)
    else [h[0]] + Without(h[1..], lower)
  }

  lemma {:induction false} GetWithout(h: HeaderList, lower: string, name: string)
    ensures Get(Without(h, lower), name) == if LowerName(name) == lower then None else Get(h, name)
    decreases |h|
  {
    if h != [] {
      GetWithout(h[1..], lower, name);
    }
  }

  /** `headers.set(name, value)`: the first pair with that name, up to case,
      takes the new value and the others are removed; with no such pair the
      new one is appended. */
  function SetHeader(h: HeaderList, name: string, value: string): HeaderList
    decreases |h|
  {
    if h == [] then [(name, value)]
    else if LowerName(h[0].0) == LowerName(name) then [(h[0].0, value)] + Without(h[1..], LowerName(name))
    else [h[0]] + SetHeader(h[1..], name, value)
  }

  /** After `set`, the name reads as the value just set, and every other name
      reads as before. */
  lemma {:induction false} GetSetHeader(h: HeaderList, name: string, value: string, other: string)
    ensures Get(SetHeader(h, name, value), other) ==
            if LowerName(other) == LowerName(name) then Some(value) else Get(h, other)
    decreases |h|
  {
    if h != [] {
      if LowerName(h[0].0) == LowerName(name) {
        GetWithout(h[1..], LowerName(name), other);
        var r := [(h[0].0, value)] + Without(h[1..], LowerName(name));
        assert r[1..] == Without(h[1..], LowerName(name));
      } else {
        GetSetHeader(h[1..], name, value, other);
        var r := [h[0]] + SetHeader(h[1..], name, value);
        assert r[1..] == SetHeader(h[1..], name, value);
      }
    }
  }

  /** A plain JavaScript object used as a header record: its properties in
      order. Property names are compared exactly, and setting an existing
      property keeps its place. */
  type Record = seq<(string, string)>

  function SetProperty(r: Record, key: string, value: string): Record {
    if r == [] then [(key, value)]
    else if r[0].0 == key then [(key, value)] + r[1..]
    else [r[0]] + SetProperty(r[1..], key, value)
  }

  /** `{...r, ...s}`. */
  function Spread(r: Record, s: Record): Record
    decreases |s|
  {
    if s == [] then r else Spread(SetProperty(r, s[0].0, s[0].1), s[1..])
  }

  predicate HasKey(r: Record, key: string) {
    exists i :: 0 <= i < |r| && r[i].0 == key
  }

  lemma {:induction false} SetPropertyFresh(r: Record, key: string, value: string)
    requires !HasKey(r, key)
    ensures SetProperty(r, key, value) == r + [(key, value)]
    decreases |r|
  {
    if r != [] {
      assert r[0].0 != key;
      assert !HasKey(r[1..], key) by {
        forall i | 0 <= i < |r[1..]| ensures r[1..][i].0 != key {
          assert r[1..][i] == r[i + 1];
        }
      }
      SetPropertyFresh(r[1..], key, value);
    }
  }

  /** Spreading in properties that are all new appends them in order. */
  lemma {:induction false} SpreadFresh(r: Record, s: Record)
    requires forall i :: 0 <= i < |s| ==> !HasKey(r, s[i].0)
    requires forall i, j :: 0 <= i < j < |s| ==> s[i].0 != s[j].0
    ensures Spread(r, s) == r + s
    decreases |s|
  {
    if s != [] {
      SetPropertyFresh(r, s[0].0, s[0].1);
      var r' := r + [s[0]];
      forall i | 0 <= i < |s[1..]| ensures !HasKey(r', s[1..][i].0) {
        assert s[1..][i] == s[i + 1];
        assert !HasKey(r, s[i + 1].0);
        forall k | 0 <= k < |r'| ensures r'[k].0 != s[i + 1].0 {
          if k < |r| { assert r'[k] == r[k]; } else { assert r'[k] == s[0]; }
        }
      }
      SpreadFresh(r', s[1..]);
      assert r' + s[1..] == r + s;
    }
  }

  /** `new Headers(record)`: every property appended, in order. */
  function FromRecord(r: Record): HeaderList { r }

  predicate DistinctNames(h: HeaderList) {
    forall i, j :: 0 <= i < j < |h| ==> LowerName(h[i].0) != LowerName(h[j].0)
  }

  /** `Object.fromEntries(headers)` for a list in which no name repeats: one
      property per pair, named in lower case, as header iteration yields
      them. (Iteration also sorts the names; the order of different names
      changes no value `Get` reads.) */
  function Entries(h: HeaderList): (r: Record)
    requires DistinctNames(h)
    ensures |r| == |h|
    ensures forall i :: 0 <= i < |h| ==> r[i] == (LowerName(h[i].0), h[i].1)
  {
    seq(|h|, i requires 0 <= i < |h| => (LowerName(h[i].0), h[i].1))
  }

  lemma {:induction false} GetEntries(h: HeaderList, name: string)
    requires DistinctNames(h)
    ensures Get(Entries(h), name) == Get(h, name)
    decreases |h|
  {
    if h != [] {
      LowerNameIdempotent(h[0].0);
      assert Entries(h)[1..] == Entries(h[1..]);
      GetEntries(h[1..], name);
    }
  }

  /** An object's properties named in lower case never clash with a name that
      has an upper-case letter. */
  lemma EntriesHaveNoUpperKey(h: HeaderList, key: string)
    requires DistinctNames(h) && HasUpper(key)
    ensures !HasKey(Entries(h), key)
  {
    forall i | 0 <= i < |h| ensures Entries(h)[i].0 != key {
      LowerNameIdempotent(h[i].0);
    }
  }

  /** The CORS headers as the record `corsHeaders` returns. */
  function CorsRecord(c: CorsHeaders): Record {
    [("Access-Control-Allow-Origin", c.allowOrigin),
     ("Access-Control-Allow-Methods", c.allowMethods),
     ("Access-Control-Allow-Headers", c.allowHeaders),
     ("Access-Control-Max-Age", c.maxAge)]
  }

  const CacheMarker: string := "X-Worker-Cache"
  const NoticeName: string := "X-Worker-Notice"

  /** The headers of the fresh response the worker stores (lines 114-119). */
  function StoredHeaders(c: CorsHeaders): HeaderList {
    FromRecord([("Content-Type", "application/json"),
                ("Cache-Control", "public, max-age=86400, s-maxage=86400")] +
               CorsRecord(c) + [(CacheMarker, "MISS")])
  }

  /** The headers of a response served from the cache AS WRITTEN: the stored
      headers turned into an object, the CORS record and the marker spread
      over it, and the result given to `new Headers`. */
  function HitHeadersAsWritten(stored: HeaderList, c: CorsHeaders, notice: Option<string>): HeaderList
    requires DistinctNames(stored)
  {
    FromRecord(Spread(Spread(Entries(stored), CorsRecord(c)), SpreadExtra(notice)))
  }

  lemma NamesDiffer()
    ensures LowerName("Content-Type") != LowerName(CacheMarker)
    ensures LowerName("Cache-Control") != LowerName(CacheMarker)
    ensures LowerName("Access-Control-Allow-Origin") != LowerName(CacheMarker)
    ensures LowerName("Access-Control-Allow-Methods") != LowerName(CacheMarker)
    ensures LowerName("Access-Control-Allow-Headers") != LowerName(CacheMarker)
    ensures LowerName("Access-Control-Max-Age") != LowerName(CacheMarker)
    ensures LowerName(NoticeName) != LowerName(CacheMarker)
    ensures LowerName("Access-Control-Allow-Methods") != LowerName("Access-Control-Allow-Origin")
    ensures LowerName("Access-Control-Allow-Headers") != LowerName("Access-Control-Allow-Origin")
    ensures LowerName("Access-Control-Max-Age") != LowerName("Access-Control-Allow-Origin")
    ensures LowerName(NoticeName) != LowerName("Access-Control-Allow-Origin")
    ensures LowerName("Content-Type") != LowerName("Access-Control-Allow-Origin")
    ensures LowerName("Cache-Control") != LowerName("Access-Control-Allow-Origin")
    ensures LowerName(NoticeName) != LowerName("Content-Type")
    ensures LowerName(NoticeName) != LowerName("Cache-Control")
    ensures LowerName(NoticeName) != LowerName("Access-Control-Allow-Methods")
    ensures LowerName(NoticeName) != LowerName("Access-Control-Allow-Headers")
    ensures LowerName(NoticeName) != LowerName("Access-Control-Max-Age")
  {
    assert LowerName("Content-Type")[0] == 'c';
    assert LowerName("Cache-Control")[0] == 'c';
    assert LowerName(CacheMarker)[0] == 'x' && LowerName(NoticeName)[0] == 'x';
    assert LowerName(NoticeName)[9] == 'n' && LowerName(CacheMarker)[9] == 'c';
    assert LowerName("Access-Control-Allow-Origin")[0] == 'a';
    assert LowerName("Access-Control-Allow-Methods")[0] == 'a';
    assert LowerName("Access-Control-Allow-Headers")[0] == 'a';
    assert LowerName("Access-Control-Max-Age")[0] == 'a';
    assert LowerName("Access-Control-Allow-Origin")[21] == 'o';
    assert LowerName("Access-Control-Allow-Methods")[21] == 'm';
    assert LowerName("Access-Control-Allow-Headers")[21] == 'h';
    assert |LowerName("Access-Control-Max-Age")| != |LowerName("Access-Control-Allow-Origin")|;
  }

  lemma CorsRecordReads(c: CorsHeaders)
    ensures Get(CorsRecord(c), CacheMarker) == None
    ensures Get(CorsRecord(c), NoticeName) == None
    ensures Get(CorsRecord(c), "Access-Control-Allow-Origin") == Some(c.allowOrigin)
  {
    NamesDiffer();
    var r := CorsRecord(c);
    var r1, r2, r3: HeaderList := r[1..], r[2..], r[3..];
    assert r1[1..] == r2 && r2[1..] == r3 && r3[1..] == [];
    assert Get(r3, CacheMarker) == None && Get(r3, "Access-Control-Allow-Origin") == None && Get(r3, NoticeName) == None;
    assert Get(r2, CacheMarker) == None && Get(r2, "Access-Control-Allow-Origin") == None && Get(r2, NoticeName) == None;
    assert Get(r1, CacheMarker) == None && Get(r1, "Access-Control-Allow-Origin") == None && Get(r1, NoticeName) == None;
  }

  /** Every property name the worker spreads in has an upper-case letter, and
      no two of them are equal. */
  lemma SpreadKeys(c: CorsHeaders, notice: Option<string>)
    ensures var all := CorsRecord(c) + SpreadExtra(notice);
      (forall i :: 0 <= i < |all| ==> HasUpper(all[i].0)) &&
      (forall i, j :: 0 <= i < j < |all| ==> all[i].0 != all[j].0)
  {
    var all := CorsRecord(c) + SpreadExtra(notice);
    forall i | 0 <= i < |all| ensures HasUpper(all[i].0) {
      assert IsAsciiUpper(all[i].0[0]);
    }
    NamesDiffer();
  }

  /** The properties the worker spreads in. */
  function SpreadExtra(notice: Option<string>): Record {
    [(CacheMarker, "HIT")] + (if notice.Some? then [(NoticeName, notice.value)] else [])
  }

  /** AS WRITTEN, none of the spread names is already a key, so each spread
      appends: the served list is the stored entries, then the CORS headers,
      then the marker and the notice. */
  lemma AsWrittenAppends(stored: HeaderList, c: CorsHeaders, notice: Option<string>)
    requires DistinctNames(stored)
    ensures HitHeadersAsWritten(stored, c, notice) == Entries(stored) + CorsRecord(c) + SpreadExtra(notice)
  {
    var r0, cors, extra := Entries(stored), CorsRecord(c), SpreadExtra(notice);
    SpreadKeys(c, notice);
    var all := cors + extra;
    assert forall i :: 0 <= i < |cors| ==> cors[i] == all[i];
    assert forall i :: 0 <= i < |extra| ==> extra[i] == all[|cors| + i];
    forall i | 0 <= i < |all| ensures !HasKey(r0, all[i].0) {
      EntriesHaveNoUpperKey(stored, all[i].0);
    }
    SpreadFresh(r0, cors);
    forall i | 0 <= i < |extra| ensures !HasKey(r0 + cors, extra[i].0) {
      assert !HasKey(r0, extra[i].0);
      forall k | 0 <= k < |r0 + cors| ensures (r0 + cors)[k].0 != extra[i].0 {
        if k >= |r0| { assert (r0 + cors)[k] == all[k - |r0|]; }
      }
    }
    SpreadFresh(r0 + cors, extra);
  }

  /** AS WRITTEN, a response served from the cache carries the stored cache
      marker and the new one together, and the stored allowed origin and the
      new one together. */
  lemma {:induction false} AsWrittenDoublesHeaders(stored: HeaderList, c: CorsHeaders, notice: Option<string>)
    requires DistinctNames(stored)
    requires Get(stored, CacheMarker).Some? && Get(stored, "Access-Control-Allow-Origin").Some?
    ensures Get(HitHeadersAsWritten(stored, c, notice), CacheMarker) ==
            Some(Get(stored, CacheMarker).value + ", HIT")
    ensures Get(HitHeadersAsWritten(stored, c, notice), "Access-Control-Allow-Origin") ==
            Some(Get(stored, "Access-Control-Allow-Origin").value + ", " + c.allowOrigin)
  {
    var r0, cors, extra := Entries(stored), CorsRecord(c), SpreadExtra(notice);
    AsWrittenAppends(stored, c, notice);
    GetAppend(r0 + cors, extra, CacheMarker);
    GetAppend(r0, cors, CacheMarker);
    GetAppend(r0 + cors, extra, "Access-Control-Allow-Origin");
    GetAppend(r0, cors, "Access-Control-Allow-Origin");
    GetEntries(stored, CacheMarker);
    GetEntries(stored, "Access-Control-Allow-Origin");
    CorsRecordReads(c);
    NamesDiffer();
    assert Get(extra[1..], CacheMarker) == None && Get(extra[1..], "Access-Control-Allow-Origin") == None by {
      if notice.Some? {
        assert extra[1..] == [(NoticeName, notice.value)];
        assert extra[1..][1..] == [];
      } else {
        assert extra[1..] == [];
      }
    }
    assert Get(extra, CacheMarker) == Some("HIT");
    var v := Get(stored, CacheMarker).value;
    assert v + ", " + "HIT" == v + ", HIT";
  }

  /** The headers of a served response when the merge uses `headers.set`:
      the stored headers with the CORS headers, the HIT marker and the notice
      set over them rather than appended. */
  function HitHeaders(stored: HeaderList, c: CorsHeaders, notice: Option<string>): HeaderList {
    var h1 := SetHeader(stored, "Access-Control-Allow-Origin", c.allowOrigin);
    var h2 := SetHeader(h1, "Access-Control-Allow-Methods", c.allowMethods);
    var h3 := SetHeader(h2, "Access-Control-Allow-Headers", c.allowHeaders);
    var h4 := SetHeader(h3, "Access-Control-Max-Age", c.maxAge);
    var h5 := SetHeader(h4, CacheMarker, "HIT");
    if notice.Some? then SetHeader(h5, NoticeName, notice.value) else h5
  }

  /** Each name of a served response reads the value set last under it, and
      a name set by none of the steps reads as stored. */
  lemma {:induction false} GetHitHeaders(stored: HeaderList, c: CorsHeaders, notice: Option<string>, n: string)
    ensures Get(HitHeaders(stored, c, notice), n) ==
      if notice.Some? && LowerName(n) == LowerName(NoticeName) then notice
      else if LowerName(n) == LowerName(CacheMarker) then Some("HIT")
      else if LowerName(n) == LowerName("Access-Control-Max-Age") then Some(c.maxAge)
      else if LowerName(n) == LowerName("Access-Control-Allow-Headers") then Some(c.allowHeaders)
      else if LowerName(n) == LowerName("Access-Control-Allow-Methods") then Some(c.allowMethods)
      else if LowerName(n) == LowerName("Access-Control-Allow-Origin") then Some(c.allowOrigin)
      else Get(stored, n)
  {
    var h1 := SetHeader(stored, "Access-Control-Allow-Origin", c.allowOrigin);
    var h2 := SetHeader(h1, "Access-Control-Allow-Methods", c.allowMethods);
    var h3 := SetHeader(h2, "Access-Control-Allow-Headers", c.allowHeaders);
    var h4 := SetHeader(h3, "Access-Control-Max-Age", c.maxAge);
    var h5 := SetHeader(h4, CacheMarker, "HIT");
    GetSetHeader(stored, "Access-Control-Allow-Origin", c.allowOrigin, n);
    GetSetHeader(h1, "Access-Control-Allow-Methods", c.allowMethods, n);
    GetSetHeader(h2, "Access-Control-Allow-Headers", c.allowHeaders, n);
    GetSetHeader(h3, "Access-Control-Max-Age", c.maxAge, n);
    GetSetHeader(h4, CacheMarker, "HIT", n);
    if notice.Some? {
      GetSetHeader(h5, NoticeName, notice.value, n);
    }
  }

  /** Whatever was stored, a served response reads HIT as its only marker and
      the current request's allowed origin as its only origin, and carries the
      notice when there is one and the stored notice, if any, otherwise. */
  lemma HitHeadersSingleValued(stored: HeaderList, c: CorsHeaders, notice: Option<string>)
    ensures Get(HitHeaders(stored, c, notice), CacheMarker) == Some("HIT")
    ensures Get(HitHeaders(stored, c, notice), "Access-Control-Allow-Origin") == Some(c.allowOrigin)
    ensures notice.Some? ==> Get(HitHeaders(stored, c, notice), NoticeName) == notice
    ensures notice.None? ==> Get(HitHeaders(stored, c, notice), NoticeName) == Get(stored, NoticeName)
  {
    NamesDiffer();
    GetHitHeaders(stored, c, notice, CacheMarker);
    GetHitHeaders(stored, c, notice, "Access-Control-Allow-Origin");
    GetHitHeaders(stored, c, notice, NoticeName);
  }

  /** A served response keeps every stored header the merge does not set,
      such as the stored `Content-Type` and `Cache-Control`. */
  lemma HitHeadersKeepOthers(stored: HeaderList, c: CorsHeaders, notice: Option<string>, other: string)
    requires LowerName(other) !in {LowerName("Access-Control-Allow-Origin"), LowerName("Access-Control-Allow-Methods"),
                                   LowerName("Access-Control-Allow-Headers"), LowerName("Access-Control-Max-Age"),
                                   LowerName(CacheMarker), LowerName(NoticeName)}
    ensures Get(HitHeaders(stored, c, notice), other) == Get(stored, other)
  {
    GetHitHeaders(stored, c, notice, other);
  }

  /** The stored list has no repeated name. */
  lemma StoredNamesDistinct(c: CorsHeaders)
    ensures DistinctNames(StoredHeaders(c))
  {
    var h := StoredHeaders(c);
    // Only two of the names have the same length, and they differ at index 21.
    var lengths := [12, 13, 27, 28, 28, 22, 14];
    assert forall i :: 0 <= i < 7 ==> |LowerName(h[i].0)| == lengths[i];
    assert LowerName(h[3].0)[21] == 'm' && LowerName(h[4].0)[21] == 'h';
    forall i, j | 0 <= i < j < 7 ensures LowerName(h[i].0) != LowerName(h[j].0) {
      if i == 3 && j == 4 {
        assert LowerName(h[i].0)[21] != LowerName(h[j].0)[21];
      } else {
        assert lengths[i] != lengths[j];
      }
    }
  }

  /** The stored list reads MISS as its marker and the first requester's
      allowed origin as its origin, and carries no notice. */
  lemma StoredHeadersRead(c: CorsHeaders)
    ensures Get(StoredHeaders(c), CacheMarker) == Some("MISS")
    ensures Get(StoredHeaders(c), NoticeName) == None
    ensures Get(StoredHeaders(c), "Access-Control-Allow-Origin") == Some(c.allowOrigin)
  {
    var h := StoredHeaders(c);
    NamesDiffer();
    var prefix: HeaderList := [("Content-Type", "application/json"),
                               ("Cache-Control", "public, max-age=86400, s-maxage=86400")];
    var marker: HeaderList := [(CacheMarker, "MISS")];
    assert h == prefix + CorsRecord(c) + marker;
    CorsRecordReads(c);
    GetAppend(prefix + CorsRecord(c), marker, CacheMarker);
    GetAppend(prefix, CorsRecord(c), CacheMarker);
    GetAppend(prefix + CorsRecord(c), marker, "Access-Control-Allow-Origin");
    GetAppend(prefix, CorsRecord(c), "Access-Control-Allow-Origin");
    GetAppend(prefix + CorsRecord(c), marker, NoticeName);
    GetAppend(prefix, CorsRecord(c), NoticeName);
    assert prefix[1..][1..] == [] && marker[1..] == [];
    assert LowerName("Content-Type") != LowerName("Access-Control-Allow-Origin");
    assert LowerName("Cache-Control") != LowerName("Access-Control-Allow-Origin");
  }

  /** The input that shows the doubling: a browser request from the allowed
      origin stores a fresh response, and the next such request is served it
      with the marker `MISS, HIT` and the origin listed twice, which a browser
      rejects. */
  lemma DoubledHeadersExample()
    ensures var c := CorsFor(Some(AllowedOrigin));
      DistinctNames(StoredHeaders(c)) &&
      Get(HitHeadersAsWritten(StoredHeaders(c), c, None), CacheMarker) == Some("MISS, HIT") &&
      Get(HitHeadersAsWritten(StoredHeaders(c), c, None), "Access-Control-Allow-Origin") ==
        Some(AllowedOrigin + ", " + AllowedOrigin)
  {
    var c := CorsFor(Some(AllowedOrigin));
    StoredNamesDistinct(c);
    StoredHeadersRead(c);
    AsWrittenDoublesHeaders(StoredHeaders(c), c, None);
    assert "MISS" + ", HIT" == "MISS, HIT";
  }
}
