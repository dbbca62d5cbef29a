/** The on-disk JSON cache of candle responses: the file-name template and
    its character sanitisation, and the decision whether a stored file is
    served. Reading and writing files, JSON parsing and date parsing are
    not modelled; their results are parameters. */
module JsonCache {
  import opened Common

  /** The cache key. `from` and `limit` are None when undefined, and are
      already rendered as text otherwise. */
  datatype CacheParams = CacheParams(symbol: string, timeframe: string, from: Option<string>, limit: Option<string>)

  /** A destructuring default: it applies only when the field is undefined. */
  function Default(v: Option<string>, fallback: string): string
  {
    if v.Some? then v.value else fallback
  }

  /** `${symbol}_${timeframe}_${from}_limit-${limit}.json`, with from
      defaulting to "auto" and limit to "max". */
  function RawName(p: CacheParams): string
  {
    p.symbol + "_" + p.timeframe + "_" + Default(p.from, "auto") + "_limit-" + Default(p.limit, "max") + ".json"
  }

  /** The characters `[a-zA-Z0-9_.-]` the sanitiser keeps. */
  predicate SafeChar(c: char)
  {
    ('a' <= c <= 'z') || ('A' <= c <= 'Z') || ('0' <= c <= '9') || c == '_' || c == '.' || c == '-'
  }

  predicate AllSafe(s: string)
  {
    forall i :: 0 <= i < |s| ==> SafeChar(s[i])
  }

  /** A character outside the Basic Multilingual Plane: a JavaScript string
      holds it as two UTF-16 code units (a surrogate pair). */
  predicate Astral(c: char)
  {
    c as int >= 0x1_0000
  }

  /** The length of `s` as JavaScript counts it, in UTF-16 code units. */
  function Utf16Length(s: string): (n: nat)
    ensures n >= |s|
  {
    if s == [] then 0 else (if Astral(s[0]) then 2 else 1) + Utf16Length(s[1..])
  }

  /** The replacement of one character. The pattern has no `u` flag, so it
      matches code units: both halves of a surrogate pair are unsafe, and an
      astral character becomes two underscores. */
  function SanitizeChar(c: char): (r: string)
    ensures AllSafe(r) && |r| == Utf16Length([c])
    ensures SafeChar(c) ==> r == [c]
    ensures !SafeChar(c) ==> forall i :: 0 <= i < |r| ==> r[i] == '_'
  {
    if SafeChar(c) then [c] else if Astral(c) then "__" else "_"
  }

  /** The global replace of every unsafe code unit by '_': as many code
      units as the input, every result character safe, safe characters
      kept and every other code unit turned into '_'. */
  function Sanitize(s: string): (r: string)
    ensures |r| == Utf16Length(s)
    ensures AllSafe(r)
  {
    if s == [] then []
    else SanitizeChar(s[0]) + Sanitize(s[1..])
  }

  /** An emoji, held by JavaScript as a surrogate pair, becomes two
      underscores. */
  lemma AstralBecomesTwoUnderscores()
    ensures Sanitize("SBER\U{1F600}") == "SBER__"
  {
    LiteralSafe("SBER");
    SanitizeAppend("SBER", "\U{1F600}");
  }

  /** A name made of safe characters only is left as it is. */
  lemma {:induction false} SanitizeSafe(s: string)
    requires AllSafe(s)
    ensures Sanitize(s) == s
  {
    if s != [] {
      assert AllSafe(s[1..]) by {
        forall i | 0 <= i < |s[1..]|
          ensures SafeChar(s[1..][i])
        {
          assert s[1..][i] == s[i + 1];
        }
      }
      SanitizeSafe(s[1..]);
      assert s == [s[0]] + s[1..];
    }
  }

  /** Sanitising twice is sanitising once. */
  lemma SanitizeIdempotent(s: string)
    ensures Sanitize(Sanitize(s)) == Sanitize(s)
  {
    SanitizeSafe(Sanitize(s));
  }

  /** The sanitiser works character by character, so it distributes over
      concatenation. */
  lemma {:induction false} SanitizeAppend(a: string, b: string)
    ensures Sanitize(a + b) == Sanitize(a) + Sanitize(b)
  {
    if a != [] {
      assert (a + b)[1..] == a[1..] + b;
      SanitizeAppend(a[1..], b);
    } else {
      assert a + b == b;
    }
  }

  /** A name of BMP characters is sanitised one character for one: safe
      characters stay in place and unsafe ones become '_'. An astral
      character makes the name longer. */
  lemma {:induction false} SanitizeLength(s: string)
    ensures (forall i :: 0 <= i < |s| ==> !Astral(s[i])) ==>
              |Sanitize(s)| == |s|
              && forall i :: 0 <= i < |s| ==>
                   (SafeChar(s[i]) ==> Sanitize(s)[i] == s[i]) && (!SafeChar(s[i]) ==> Sanitize(s)[i] == '_')
    ensures (exists i :: 0 <= i < |s| && Astral(s[i])) ==> |Sanitize(s)| > |s|
  {
    if s != [] {
      SanitizeLength(s[1..]);
      if forall i :: 0 <= i < |s| ==> !Astral(s[i]) {
        assert forall i :: 0 <= i < |s[1..]| ==> !Astral(s[1..][i]) by {
          forall i | 0 <= i < |s[1..]|
            ensures !Astral(s[1..][i])
          {
            assert s[1..][i] == s[i + 1];
          }
        }
        var r := Sanitize(s);
        assert r == SanitizeChar(s[0]) + Sanitize(s[1..]);
        forall i | 0 <= i < |s|
          ensures (SafeChar(s[i]) ==> r[i] == s[i]) && (!SafeChar(s[i]) ==> r[i] == '_')
        {
          if i > 0 {
            assert r[i] == Sanitize(s[1..])[i - 1];
            assert s[1..][i - 1] == s[i];
          }
        }
      }
      if exists i :: 0 <= i < |s| && Astral(s[i]) {
        var i :| 0 <= i < |s| && Astral(s[i]);
        if i > 0 {
          assert s[1..][i - 1] == s[i];
        }
      }
    }
  }

  /** The file name. The cache directory it is joined to is fixed and not
      part of this model. Its length is the raw template's length in UTF-16
      code units. */
  function CacheFileName(p: CacheParams): (name: string)
    ensures |name| == Utf16Length(RawName(p)) && AllSafe(name)
  {
    Sanitize(RawName(p))
  }

  /** The separators and the suffix of the template are safe as they are. */
  lemma TemplateLiteralsSafe()
    ensures Sanitize("_") == "_" && Sanitize("_limit-") == "_limit-" && Sanitize(".json") == ".json"
  {
    LiteralSafe("_");
    LiteralSafe("_limit-");
    LiteralSafe(".json");
  }

  /** The characters of the template's literals, checked one by one. */
  lemma LiteralSafe(lit: string)
    requires lit == "_" || lit == "SBER" || lit == "_limit-" || lit == ".json"
    ensures Sanitize(lit) == lit
  {
    assert AllSafe(lit) by {
      forall i | 0 <= i < |lit|
        ensures SafeChar(lit[i])
      {
        assert lit[i] in "_limit-.jsonSBER";
      }
    }
    SanitizeSafe(lit);
  }

  /** Appending a safe literal to a sanitised prefix. */
  lemma SanitizeAppendSafe(a: string, lit: string)
    requires Sanitize(lit) == lit
    ensures Sanitize(a + lit) == Sanitize(a) + lit
  {
    SanitizeAppend(a, lit);
  }

  /** Sanitising the parts separately gives the same name: the separators
      and the `.json` suffix survive, so the name always ends in `.json`. */
  lemma CacheFileNameParts(p: CacheParams)
    ensures CacheFileName(p) == Sanitize(p.symbol) + "_" + Sanitize(p.timeframe) + "_" + Sanitize(Default(p.from, "auto"))
                                + "_limit-" + Sanitize(Default(p.limit, "max")) + ".json"
    ensures |CacheFileName(p)| >= 5 && CacheFileName(p)[|CacheFileName(p)| - 5..] == ".json"
  {
    var f := Default(p.from, "auto");
    var l := Default(p.limit, "max");
    TemplateLiteralsSafe();
    var s1 := p.symbol + "_";
    SanitizeAppendSafe(p.symbol, "_");
    var s2 := s1 + p.timeframe;
    SanitizeAppend(s1, p.timeframe);
    var s3 := s2 + "_";
    SanitizeAppendSafe(s2, "_");
    var s4 := s3 + f;
    SanitizeAppend(s3, f);
    var s5 := s4 + "_limit-";
    SanitizeAppendSafe(s4, "_limit-");
    var s6 := s5 + l;
    SanitizeAppend(s5, l);
    var s7 := s6 + ".json";
    SanitizeAppendSafe(s6, ".json");
    assert RawName(p) == s7;
    var name := Sanitize(s6) + ".json";
    assert name[|name| - 5..] == ".json";
  }

  // ---------------------------------------------------------------------
  // Reading

  /** The `meta` object of a stored payload: `createdAt` is None when it is
      missing or null. */
  datatype Meta = Meta(createdAt: Option<string>)

  /** A parsed cache file; the candles it carries are opaque here. */
  datatype Payload<C> = Payload(meta: Option<Meta>, candles: C)

  /** What reading the file gave: no file, a file that could not be read or
      parsed, or the parsed payload. */
  datatype FileState<C> = NoFile | Unreadable | Parsed(payload: Payload<C>)

  /** The age test `now - createdAt > ttlMs`. */
  predicate Expired(now: int, createdAt: int, ttlMs: int)
  {
    now - createdAt > ttlMs
  }

  /** `readCache`: null for a missing or unreadable file, for a payload
      without `meta.createdAt`, and for an expired one; the payload
      otherwise. `parseTime` is `new Date(createdAt).getTime()`, None when
      the text is not a date (NaN), in which case the age test is false. */
  function ReadCache<C>(file: FileState<C>, ttlMs: int, now: int, parseTime: string -> Option<int>): (r: Option<Payload<C>>)
    ensures r.Some? ==> file.Parsed? && r.value == file.payload
  {
    if !file.Parsed? then None
    else
      var p := file.payload;
      if p.meta.None? || p.meta.value.createdAt.None? || p.meta.value.createdAt.value == "" then None
      else
        var createdAt := parseTime(p.meta.value.createdAt.value);
        if createdAt.Some? && Expired(now, createdAt.value, ttlMs) then None
        else Some(p)
  }

  /** A file is served iff it parsed, carries a non-empty createdAt, and is
      not older than ttlMs; an entry exactly ttlMs old is still served, and
      so is one whose createdAt is not a date. */
  lemma ReadCacheHit<C>(file: FileState<C>, ttlMs: int, now: int, parseTime: string -> Option<int>)
    ensures ReadCache(file, ttlMs, now, parseTime).Some? <==>
              file.Parsed? && file.payload.meta.Some? && file.payload.meta.value.createdAt.Some?
              && file.payload.meta.value.createdAt.value != ""
              && (parseTime(file.payload.meta.value.createdAt.value).None?
                  || now - parseTime(file.payload.meta.value.createdAt.value).value <= ttlMs)
  {
  }

  /** At exactly ttlMs of age the file is still a hit; one millisecond
      later it is a miss. */
  lemma ExpiryBoundary<C>(p: Payload<C>, ttlMs: int, created: int, parseTime: string -> Option<int>)
    requires p.meta.Some? && p.meta.value.createdAt.Some? && p.meta.value.createdAt.value != ""
    requires parseTime(p.meta.value.createdAt.value) == Some(created)
    ensures ReadCache(Parsed(p), ttlMs, created + ttlMs, parseTime) == Some(p)
    ensures ReadCache(Parsed(p), ttlMs, created + ttlMs + 1, parseTime) == None
  {
  }
}
