/**
 * The two MySQL-style connection-string builders: `DatabaseConfig.Dsn` with
 * its parameter parser `parseParameters` (config_database.go), and the
 * verbatim-parameters `DatabaseConfig.DSN` (remote/database.go).
 */
module ConnStrings {
  import opened Wrappers
  import opened Strings
  import opened Configs

  /** url.Values: each key maps to its values in the order they were added. */
  type Values = map<string, seq<string>>

  /** url.Values.Add: appends `v` to the values already held by `k`. */
  function Add(values: Values, k: string, v: string): (r: Values)
    ensures r.Keys == values.Keys + {k}
    ensures r[k] == (if k in values then values[k] else []) + [v]
    ensures forall k' :: k' in values && k' != k ==> r[k'] == values[k']
  {
    values[k := (if k in values then values[k] else []) + [v]]
  }

  /** `user:password@tcp(host:port)/name`, the part both builders share. */
  function Base(cfg: DatabaseConfig): (base: string)
    ensures var head := cfg.username + ":" + cfg.password + "@tcp(";
      var tail := ")/" + cfg.name;
      && |head| + |tail| <= |base|
      && base[..|head|] == head
      && base[|base| - |tail|..] == tail
      && SplitLast(base[|head|..|base| - |tail|], ':') == Some((cfg.host, FormatInt(cfg.port)))
  {
    var head := cfg.username + ":" + cfg.password + "@tcp(";
    var tail := ")/" + cfg.name;
    var addr := HostPort(cfg.host, cfg.port);
    assert (head + addr + tail)[|head|..|head| + |addr|] == addr;
    head + addr + tail
  }

  // ---------------------------------------------------------------------
  // parseParameters, specified
  // ---------------------------------------------------------------------

  /**
   * The separator: ',' only when the text has no '&' but has a ','; '&' in every
   * other case.
   */
  function Separator(parameters: string): (sep: char)
    ensures sep == ',' <==> '&' !in parameters && ',' in parameters
    ensures sep == '&' || sep == ','
  {
    if '&' !in parameters && ',' in parameters then ',' else '&'
  }

  /**
   * What one piece contributes: nothing when it is blank after trimming or has
   * no '='; otherwise the key before its first '=' and the (possibly empty) rest.
   */
  function PiecePair(piece: string): (r: seq<(string, string)>)
    ensures |r| <= 1
    ensures |r| == 1 <==> '=' in TrimSpace(piece)
    ensures |r| == 1 ==> '=' !in r[0].0 && r[0].0 + "=" + r[0].1 == TrimSpace(piece)
  {
    var t := TrimSpace(piece);
    if t == "" then []
    else match SplitFirst(t, '=')
      case None => []
      case Some(kv) => [kv]
  }

  /** The pairs of all pieces, in piece order. */
  function PiecePairs(pieces: seq<string>): seq<(string, string)> {
    if pieces == [] then [] else PiecePairs(pieces[..|pieces| - 1]) + PiecePair(pieces[|pieces| - 1])
  }

  /** The key/value pairs `parseParameters` adds, in the order it adds them. */
  function Pairs(parameters: string): seq<(string, string)> {
    if parameters == "" then [] else PiecePairs(Split(parameters, Separator(parameters)))
  }

  /** The url.Values built by adding `pairs` one after the other. */
  function Collect(pairs: seq<(string, string)>): Values {
    if pairs == [] then map[]
    else
      var last := pairs[|pairs| - 1];
      Add(Collect(pairs[..|pairs| - 1]), last.0, last.1)
  }

  /** The values of key `k` in `pairs`, in order. */
  function ValuesOf(pairs: seq<(string, string)>, k: string): seq<string> {
    if pairs == [] then []
    else
      var last := pairs[|pairs| - 1];
      ValuesOf(pairs[..|pairs| - 1], k) + (if last.0 == k then [last.1] else [])
  }

  /**
   * Repeated keys are all kept: a key is present exactly when some pair has it,
   * and it holds the values of all such pairs in input order.
   */
  lemma {:induction false} CollectLookup(pairs: seq<(string, string)>, k: string)
    ensures k in Collect(pairs) <==> ValuesOf(pairs, k) != []
    ensures k in Collect(pairs) ==> Collect(pairs)[k] == ValuesOf(pairs, k)
    decreases |pairs|
  {
    if pairs != [] {
      CollectLookup(pairs[..|pairs| - 1], k);
    }
  }

  /** `len(params) > 0` holds exactly when at least one pair survived parsing. */
  lemma {:induction false} CollectEmpty(pairs: seq<(string, string)>)
    ensures |Collect(pairs)| == 0 <==> pairs == []
  {
    if pairs != [] {
      var last := pairs[|pairs| - 1];
      assert last.0 in Collect(pairs);
    }
  }

  /** `kv` is what `piece` yields: its trimmed text split at the first '='. */
  predicate FromPiece(kv: (string, string), piece: string) {
    '=' !in kv.0 && kv.0 + "=" + kv.1 == TrimSpace(piece)
  }

  /** Every pair of PiecePairs comes from one piece (the j-th), trimmed and split at its first '='. */
  lemma {:induction false} PiecePairsFromPieces(pieces: seq<string>, n: nat) returns (j: nat)
    requires n < |PiecePairs(pieces)|
    ensures j < |pieces| && FromPiece(PiecePairs(pieces)[n], pieces[j])
    decreases |pieces|
  {
    var init := pieces[..|pieces| - 1];
    var front := PiecePairs(init);
    var own := PiecePair(pieces[|pieces| - 1]);
    assert PiecePairs(pieces) == front + own;
    if n < |front| {
      j := PiecePairsFromPieces(init, n);
      assert init[j] == pieces[j];
    } else {
      j := |pieces| - 1;
      assert PiecePairs(pieces)[n] == own[0];
    }
  }

  lemma PiecePairsStep(pieces: seq<string>, i: nat)
    requires i < |pieces|
    ensures PiecePairs(pieces[..i + 1]) == PiecePairs(pieces[..i]) + PiecePair(pieces[i])
  {
    assert pieces[..i + 1][..i] == pieces[..i];
  }

  lemma CollectStep(pairs: seq<(string, string)>, extra: seq<(string, string)>)
    requires |extra| <= 1
    ensures Collect(pairs + extra) == if extra == [] then Collect(pairs) else Add(Collect(pairs), extra[0].0, extra[0].1)
  {
    if extra == [] {
      assert pairs + extra == pairs;
    } else {
      assert (pairs + extra)[..|pairs|] == pairs;
    }
  }

  /** Empty parameters yield no pairs at all. */
  lemma PairsOfEmpty()
    ensures Pairs("") == []
  {
  }

  /** A piece already trimmed, with a key free of '=', contributes exactly its key and value. */
  lemma PiecePairOfWellFormed(k: string, v: string)
    requires |k| > 0 && '=' !in k && !IsSpace(k[0])
    requires v == [] || !IsSpace(v[|v| - 1])
    ensures PiecePair(k + "=" + v) == [(k, v)]
  {
    var s := k + "=" + v;
    TrimSpaceKeepsTrimmed(s);
    SplitFirstAt(k, v, '=');
  }

  // ---------------------------------------------------------------------
  // parseParameters and Dsn, as the source computes them
  // ---------------------------------------------------------------------

  /** parseParameters: adds the pair of every usable piece, in order. */
  method ParseParameters(cfg: DatabaseConfig) returns (values: Values)
    ensures values == Collect(Pairs(cfg.parameters))
  {
    values := map[];
    if cfg.parameters == "" {
      return;
    }
    var separator := Separator(cfg.parameters);
    var pieces := Split(cfg.parameters, separator);
    var i := 0;
    while i < |pieces|
      invariant 0 <= i <= |pieces|
      invariant values == Collect(PiecePairs(pieces[..i]))
    {
      PiecePairsStep(pieces, i);
      CollectStep(PiecePairs(pieces[..i]), PiecePair(pieces[i]));
      var piece := TrimSpace(pieces[i]);
      if piece != "" {
        var kv := SplitFirst(piece, '=');
        if kv.Some? {
          values := Add(values, kv.value.0, kv.value.1);
        }
      }
      i := i + 1;
    }
    assert pieces[..|pieces|] == pieces;
  }

  /**
   * Dsn: always starts with `user:password@tcp(host:port)/name`; `?` and the encoded
   * parameters follow exactly when some pair survived parsing. `encode` stands for
   * url.Values.Encode.
   */
  method Dsn(cfg: DatabaseConfig, encode: Values -> string) returns (dsn: string)
    ensures Base(cfg) <= dsn
    ensures dsn == Base(cfg) <==> Pairs(cfg.parameters) == []
    ensures Pairs(cfg.parameters) != [] ==> dsn == Base(cfg) + "?" + encode(Collect(Pairs(cfg.parameters)))
    ensures cfg.parameters == "" ==> dsn == Base(cfg)
  {
    dsn := Base(cfg);
    var params := ParseParameters(cfg);
    CollectEmpty(Pairs(cfg.parameters));
    if |params| > 0 {
      dsn := dsn + "?" + encode(params);
    }
  }

  // ---------------------------------------------------------------------
  // remote/database.go
  // ---------------------------------------------------------------------

  /**
   * DSN of remote/database.go: the shared prefix, then '?', then the parameters
   * verbatim (no splitting, trimming or encoding); the '?' is always there.
   */
  function RemoteDsn(cfg: DatabaseConfig): (dsn: string)
    ensures Base(cfg) + "?" <= dsn
    ensures dsn[|Base(cfg)| + 1..] == cfg.parameters
  {
    Base(cfg) + "?" + cfg.parameters
  }

  /** Engine, table prefix and the pool sizes never influence either builder. */
  lemma RemoteDsnIgnoresOtherFields(a: DatabaseConfig, b: DatabaseConfig)
    requires a.username == b.username && a.password == b.password && a.host == b.host
    requires a.port == b.port && a.name == b.name && a.parameters == b.parameters
    ensures RemoteDsn(a) == RemoteDsn(b) && Base(a) == Base(b) && Pairs(a.parameters) == Pairs(b.parameters)
  {
  }

  /** With no parameters the two builders differ by the trailing '?' alone. */
  lemma BuildersDifferOnEmptyParameters(cfg: DatabaseConfig)
    requires cfg.parameters == ""
    ensures RemoteDsn(cfg) == Base(cfg) + "?"
  {
  }
}
