/** The API keys of app/config.py: how API_KEYS is parsed, and which client a key belongs to. */
module ApiKeys {
  import opened Options
  import opened Separators
  import opened Text

  // ---------------------------------------------------------------- str.split and str.partition

  function Join(parts: seq<string>, sep: char): string
    requires parts != []
  {
    if |parts| == 1 then parts[0] else parts[0] + [sep] + Join(parts[1..], sep)
  }

  /** str.split with a separator: never empty, the pieces have no separator and join to the text again. */
  function Split(s: string, sep: char): (parts: seq<string>)
    ensures parts != [] && Join(parts, sep) == s
    ensures forall i :: 0 <= i < |parts| ==> sep !in parts[i]
  {
    if s == "" then [""]
    else
      var rest := Split(s[1..], sep);
      if s[0] == sep then [""] + rest
      else
        var parts := [[s[0]] + rest[0]] + rest[1..];
        assert |rest| > 1 ==> Join(parts, sep) == [s[0]] + rest[0] + [sep] + Join(rest[1..], sep);
        assert s == [s[0]] + s[1..];
        parts
  }

  /** str.partition(":"): what is before the first colon, and what is after it. */
  function Partition(s: string): (r: (string, string))
    ensures ':' !in r.0
    ensures if ':' in s then s == r.0 + ":" + r.1 else r == (s, "")
  {
    if s == "" then ("", "")
    else if s[0] == ':' then ("", s[1..])
    else
      var (before, after) := Partition(s[1..]);
      assert s == [s[0]] + s[1..];
      ([s[0]] + before, after)
  }

  // ---------------------------------------------------------------- the keys

  datatype KeysError = NotInFormat(pair: string) | NoPairs

  /** The stripped pieces that are not blank. */
  function PairsOf(pieces: seq<string>): seq<string> {
    if pieces == [] then []
    else
      var front, last := PairsOf(pieces[..|pieces| - 1]), Strip(pieces[|pieces| - 1]);
      if last == "" then front else front + [last]
  }

  lemma {:induction false} PairsAre(pieces: seq<string>, pair: string)
    ensures pair in PairsOf(pieces) <==> pair != "" && exists i :: 0 <= i < |pieces| && pair == Strip(pieces[i])
  {
    hide Strip;
    if pieces != [] {
      var front := pieces[..|pieces| - 1];
      PairsAre(front, pair);
      assert forall i :: 0 <= i < |front| ==> front[i] == pieces[i];
    }
  }

  function Name(pair: string): string {
    Partition(pair).0
  }

  function DigestOf(pair: string, sha: string -> string): string {
    sha(Partition(pair).1)
  }

  predicate InFormat(pair: string) {
    Partition(pair).0 != "" && Partition(pair).1 != ""
  }

  /** The name of the last pair with this key digest. */
  function NameFor(pairs: seq<string>, digest: string, sha: string -> string): Option<string> {
    if pairs == [] then None
    else
      var last := pairs[|pairs| - 1];
      if DigestOf(last, sha) == digest then Some(Name(last)) else NameFor(pairs[..|pairs| - 1], digest, sha)
  }

  function Lookup(keys: map<string, string>, digest: string): Option<string> {
    if digest in keys then Some(keys[digest]) else None
  }

  /** Every digest leads to the name of the last pair with it; the first pair that is no name:key raises, and so does an empty list. */
  ghost predicate ParsesTo(raw: string, sha: string -> string, r: Result<map<string, string>, KeysError>) {
    var pairs := PairsOf(Split(raw, ','));
    match r
    case Ok(keys) =>
      && pairs != [] && (forall i :: 0 <= i < |pairs| ==> InFormat(pairs[i]))
      && (forall digest :: Lookup(keys, digest) == NameFor(pairs, digest, sha))
    case Raised(NoPairs) => pairs == []
    case Raised(NotInFormat(pair)) =>
      exists i :: 0 <= i < |pairs| && pairs[i] == pair && !InFormat(pair) && forall k :: 0 <= k < i ==> InFormat(pairs[k])
  }

  /** So it succeeds exactly when there is an entry and every entry has both a name and a key. */
  lemma ParsesExactly(raw: string, sha: string -> string, r: Result<map<string, string>, KeysError>)
    requires ParsesTo(raw, sha, r)
    ensures r.Ok? <==>
              && PairsOf(Split(raw, ',')) != []
              && forall pair :: pair in PairsOf(Split(raw, ',')) ==> Partition(pair).0 != "" && Partition(pair).1 != ""
  {
    hide PairsOf, Split, Partition, NameFor;
    var pairs := PairsOf(Split(raw, ','));
    if r.Raised? && r.error.NotInFormat? {
      assert r.error.pair in pairs;
      assert !InFormat(r.error.pair);
    }
  }

  lemma NoPairsYet(sha: string -> string)
    ensures forall digest :: Lookup(map[], digest) == NameFor([], digest, sha)
  {
  }

  lemma OneMorePair(keys: map<string, string>, seen: seq<string>, pair: string, digest: string, sha: string -> string)
    requires Lookup(keys, digest) == NameFor(seen, digest, sha)
    ensures Lookup(keys[sha(Partition(pair).1) := Partition(pair).0], digest) == NameFor(seen + [pair], digest, sha)
  {
    hide Partition;
    assert (seen + [pair])[..|seen|] == seen;
  }

  /** _parse_api_keys, with `sha` for the SHA-256 hex digest of a key. */
  method ParseApiKeys(raw: string, sha: string -> string) returns (r: Result<map<string, string>, KeysError>)
    ensures ParsesTo(raw, sha, r)
  {
    hide Strip, Split, Partition, NameFor, Lookup;
    var keys: map<string, string> := map[];
    assert forall digest :: Lookup(map[], digest) == NameFor([], digest, sha) by {
      NoPairsYet(sha);
    }
    var pieces := Split(raw, ',');
    ghost var seen: seq<string> := [];
    for i := 0 to |pieces|
      invariant seen == PairsOf(pieces[..i])
      invariant forall k :: 0 <= k < |seen| ==> InFormat(seen[k])
      invariant forall digest :: Lookup(keys, digest) == NameFor(seen, digest, sha)
      invariant keys == map[] <==> seen == []
    {
      var pair := Strip(pieces[i]);
      assert pieces[..i + 1][..i] == pieces[..i];
      PairsGrow(pieces, i + 1);
      if pair != "" {
        var (name, key) := Partition(pair);
        if name == "" || key == "" {
          assert PairsOf(pieces[..i + 1])[|seen|] == pair;
          return Raised(NotInFormat(pair));
        }
        forall digest ensures Lookup(keys[sha(key) := name], digest) == NameFor(seen + [pair], digest, sha) {
          OneMorePair(keys, seen, pair, digest, sha);
        }
        keys := keys[sha(key) := name];
        assert sha(key) in keys;
        seen := seen + [pair];
      }
    }
    assert pieces[..|pieces|] == pieces;
    if keys == map[] {
      return Raised(NoPairs);
    }
    r := Ok(keys);
  }

  /** The pairs of a beginning are the beginning of the pairs. */
  lemma {:induction false} PairsGrow(pieces: seq<string>, n: nat)
    requires n <= |pieces|
    ensures PairsOf(pieces[..n]) <= PairsOf(pieces)
    decreases |pieces|
  {
    if n == |pieces| {
      assert pieces[..n] == pieces;
    } else {
      PairsGrow(pieces[..|pieces| - 1], n);
      assert pieces[..|pieces| - 1][..n] == pieces[..n];
    }
  }

  /** verify_key. */
  function VerifyKey(plaintext: string, keys: map<string, string>, sha: string -> string): Option<string> {
    Lookup(keys, sha(plaintext))
  }

  lemma {:induction false} NameForIsOfPair(pairs: seq<string>, digest: string, sha: string -> string)
    ensures NameFor(pairs, digest, sha).Some? ==>
              exists i :: 0 <= i < |pairs| && NameFor(pairs, digest, sha) == Some(Name(pairs[i])) && DigestOf(pairs[i], sha) == digest
  {
    hide Name, DigestOf;
    if pairs != [] {
      NameForIsOfPair(pairs[..|pairs| - 1], digest, sha);
      assert pairs[|pairs| - 1] in pairs;
    }
  }

  /** A client's name is never empty and has no colon, whatever API_KEYS says and whenever it is reloaded. */
  lemma ClientNamesHaveNoColon(raw: string, keys: map<string, string>, plaintext: string, sha: string -> string)
    requires ParsesTo(raw, sha, Ok(keys)) && VerifyKey(plaintext, keys, sha).Some?
    ensures var name := VerifyKey(plaintext, keys, sha).value; name != "" && ':' !in name
  {
    hide PairsOf, Split, Partition;
    NameForIsOfPair(PairsOf(Split(raw, ',')), sha(plaintext), sha);
  }

  /** The key of a "name:key" entry authenticates as its name, unless a later entry has a key with the same digest. */
  lemma {:induction false} LastEntryWins(pairs: seq<string>, i: nat, name: string, key: string, sha: string -> string)
    requires i < |pairs| && pairs[i] == name + ":" + key && ':' !in name
    requires forall k :: i < k < |pairs| ==> DigestOf(pairs[k], sha) != sha(key)
    ensures NameFor(pairs, sha(key), sha) == Some(name)
    decreases |pairs|
  {
    hide Partition;
    if i == |pairs| - 1 {
      assert ':' in pairs[i] by {
        assert pairs[i][|name|] == ':';
      }
      FirstSplits(':', name, key, Partition(pairs[i]).0, Partition(pairs[i]).1);
    } else {
      LastEntryWins(pairs[..|pairs| - 1], i, name, key, sha);
    }
  }

  lemma KeyAuthenticates(raw: string, keys: map<string, string>, i: nat, name: string, key: string, sha: string -> string)
    requires ParsesTo(raw, sha, Ok(keys))
    requires var pairs := PairsOf(Split(raw, ','));
             && i < |pairs| && pairs[i] == name + ":" + key && ':' !in name
             && forall k :: i < k < |pairs| ==> DigestOf(pairs[k], sha) != sha(key)
    ensures VerifyKey(key, keys, sha) == Some(name)
  {
    hide PairsOf, Split, Partition, DigestOf;
    LastEntryWins(PairsOf(Split(raw, ',')), i, name, key, sha);
  }
}
