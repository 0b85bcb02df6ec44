/**
 * The deduplication of "Loading Prefab Bundle " progress lines that `filter`
 * performs on the game server's output, one chunk at a time and over a stream.
 */
module Progress {
  import opened Text

  const ProgressPrefix: string := "Loading Prefab Bundle "

  /** A chunk that is a progress line. */
  predicate IsProgress(chunk: string) {
    StartsWith(chunk, ProgressPrefix)
  }

  /** The part of a progress line after the prefix: the key it is deduplicated by. */
  function Token(chunk: string): string
    requires IsProgress(chunk)
  {
    chunk[|ProgressPrefix|..]
  }

  /** What `filter` decides for one chunk: whether it is printed, and the recorded tokens afterwards. */
  datatype Verdict = Verdict(printed: bool, seen: set<string>)

  /** `filter`'s decision, with the recorded tokens held as a set. */
  function Filter(seen: set<string>, chunk: string): Verdict {
    if IsProgress(chunk) then
      var pct := Token(chunk);
      if pct in seen then Verdict(false, seen) else Verdict(true, seen + {pct})
    else
      Verdict(true, seen)
  }

  /**
   * A chunk is printed exactly when it is not a progress line or its token is new;
   * the token of a progress line is recorded either way, and nothing else is.
   */
  lemma FilterDecides(seen: set<string>, chunk: string)
    ensures Filter(seen, chunk).printed <==> !IsProgress(chunk) || Token(chunk) !in seen
    ensures IsProgress(chunk) ==> Filter(seen, chunk).seen == seen + {Token(chunk)}
    ensures !IsProgress(chunk) ==> Filter(seen, chunk).seen == seen
  {
  }

  /** Filtering the same chunk twice prints it at most once, and a progress line exactly once if it was new. */
  lemma FilterTwicePrintsOnce(seen: set<string>, chunk: string)
    ensures var first := Filter(seen, chunk);
            var second := Filter(first.seen, chunk);
            (IsProgress(chunk) ==> !second.printed && second.seen == first.seen)
            && (IsProgress(chunk) && Token(chunk) !in seen ==> first.printed)
  {
  }

  /** Two progress lines with the same token are the same line. */
  lemma TokenDeterminesChunk(c: string, d: string)
    requires IsProgress(c) && IsProgress(d) && Token(c) == Token(d)
    ensures c == d
  {
    assert c == ProgressPrefix + Token(c);
    assert d == ProgressPrefix + Token(d);
  }

  /** The outcome of filtering a stream of chunks: what was printed, and the recorded tokens afterwards. */
  datatype Relay = Relay(printed: seq<string>, seen: set<string>)

  /** `filter` applied to each chunk of a stream in turn. */
  function RelayAll(seen: set<string>, chunks: seq<string>): Relay
    decreases |chunks|
  {
    if chunks == [] then Relay([], seen)
    else
      var before := RelayAll(seen, chunks[..|chunks| - 1]);
      var last := chunks[|chunks| - 1];
      var v := Filter(before.seen, last);
      Relay(before.printed + (if v.printed then [last] else []), v.seen)
  }

  /** The tokens of the progress lines in a stream. */
  function TokensOf(chunks: seq<string>): set<string> {
    set k | 0 <= k < |chunks| && IsProgress(chunks[k]) :: Token(chunks[k])
  }

  /** Reference definition: a chunk is shown unless it repeats a progress line or carries an already-known token. */
  predicate Shown(seen: set<string>, earlier: seq<string>, chunk: string) {
    !IsProgress(chunk) || (Token(chunk) !in seen && chunk !in earlier)
  }

  /** Reference definition: the chunks of a stream that are shown, in order. */
  function FirstSightings(seen: set<string>, chunks: seq<string>): seq<string>
    decreases |chunks|
  {
    if chunks == [] then []
    else
      var earlier := chunks[..|chunks| - 1];
      var last := chunks[|chunks| - 1];
      FirstSightings(seen, earlier) + (if Shown(seen, earlier, last) then [last] else [])
  }

  /**
   * Filtering a stream prints exactly its first sightings: every chunk that is not a
   * progress line, and the first occurrence of each progress line whose token was
   * not already recorded; afterwards the recorded tokens are the old ones plus every
   * token in the stream.
   */
  lemma {:induction false} RelayPrintsFirstSightings(seen: set<string>, chunks: seq<string>)
    ensures RelayAll(seen, chunks).printed == FirstSightings(seen, chunks)
    ensures RelayAll(seen, chunks).seen == seen + TokensOf(chunks)
    decreases |chunks|
  {
    if chunks != [] {
      var earlier := chunks[..|chunks| - 1];
      var last := chunks[|chunks| - 1];
      RelayPrintsFirstSightings(seen, earlier);
      TokensOfSnoc(chunks);
      if IsProgress(last) {
        KnownTokenIffKnownLine(earlier, last);
      }
    }
  }

  /** The tokens of a stream are those of all but its last chunk, plus the last chunk's own. */
  lemma TokensOfSnoc(chunks: seq<string>)
    requires chunks != []
    ensures var earlier := chunks[..|chunks| - 1];
            var last := chunks[|chunks| - 1];
            TokensOf(chunks) == TokensOf(earlier) + (if IsProgress(last) then {Token(last)} else {})
  {
    var earlier := chunks[..|chunks| - 1];
    var last := chunks[|chunks| - 1];
    forall t | t in TokensOf(chunks)
      ensures t in TokensOf(earlier) + (if IsProgress(last) then {Token(last)} else {})
    {
      var k :| 0 <= k < |chunks| && IsProgress(chunks[k]) && Token(chunks[k]) == t;
      if k < |earlier| { assert chunks[k] == earlier[k]; }
    }
    forall t | t in TokensOf(earlier) ensures t in TokensOf(chunks) {
      var k :| 0 <= k < |earlier| && IsProgress(earlier[k]) && Token(earlier[k]) == t;
      assert chunks[k] == earlier[k];
    }
  }

  /** A progress line's token is among a stream's tokens exactly when the line itself occurs in the stream. */
  lemma KnownTokenIffKnownLine(chunks: seq<string>, line: string)
    requires IsProgress(line)
    ensures Token(line) in TokensOf(chunks) <==> line in chunks
  {
    if Token(line) in TokensOf(chunks) {
      var k :| 0 <= k < |chunks| && IsProgress(chunks[k]) && Token(chunks[k]) == Token(line);
      TokenDeterminesChunk(chunks[k], line);
    }
    if line in chunks {
      var k :| 0 <= k < |chunks| && chunks[k] == line;
      assert Token(line) in TokensOf(chunks);
    }
  }

  /** The last chunk of a stream is printed exactly when it is a first sighting, given the tokens its predecessors recorded. */
  lemma RelayLastChunk(seen: set<string>, chunks: seq<string>)
    requires chunks != []
    ensures var earlier := chunks[..|chunks| - 1];
            var last := chunks[|chunks| - 1];
            var v := Filter(seen + TokensOf(earlier), last);
            v.printed == Shown(seen, earlier, last) && v.seen == seen + TokensOf(chunks)
            && FirstSightings(seen, chunks)
               == FirstSightings(seen, earlier) + (if Shown(seen, earlier, last) then [last] else [])
  {
    var earlier := chunks[..|chunks| - 1];
    var last := chunks[|chunks| - 1];
    RelayPrintsFirstSightings(seen, chunks);
    RelayPrintsFirstSightings(seen, earlier);
    var v := Filter(seen + TokensOf(earlier), last);
    var extra := if Shown(seen, earlier, last) then [last] else [];
    var mine := if v.printed then [last] else [];
    assert RelayAll(seen, earlier).printed + mine == FirstSightings(seen, earlier) + extra;
    assert mine == extra;
  }

  /**
   * Property names every plain JavaScript object inherits from Object.prototype;
   * reading one of them on `{}` yields a function or an object, which is truthy.
   */
  const InheritedKeys: set<string> := {
    "constructor", "__proto__", "hasOwnProperty", "isPrototypeOf", "propertyIsEnumerable",
    "toLocaleString", "toString", "valueOf",
    "__defineGetter__", "__defineSetter__", "__lookupGetter__", "__lookupSetter__"
  }

  /**
   * `filter` as written: the table of seen tokens is a plain object literal, so the
   * lookup `seenPercentage[pct]` is also truthy for every inherited property name.
   */
  function FilterAsWritten(seen: set<string>, chunk: string): Verdict {
    if IsProgress(chunk) then
      var pct := Token(chunk);
      if pct in seen || pct in InheritedKeys then Verdict(false, seen) else Verdict(true, seen + {pct})
    else
      Verdict(true, seen)
  }

  /**
   * The as-written lookup suppresses the first ever "Loading Prefab Bundle constructor"
   * line although its token was never recorded; the set-based filter prints it.
   */
  lemma InheritedKeySuppressedAsWritten()
    ensures IsProgress(ProgressPrefix + "constructor")
    ensures !FilterAsWritten({}, ProgressPrefix + "constructor").printed
    ensures Filter({}, ProgressPrefix + "constructor").printed
  {
    var c := ProgressPrefix + "constructor";
    assert c[..|ProgressPrefix|] == ProgressPrefix;
    assert Token(c) == "constructor";
  }

  /** Outside the inherited property names the as-written filter and the set-based one agree. */
  lemma AsWrittenAgreesOffInheritedKeys(seen: set<string>, chunk: string)
    requires !IsProgress(chunk) || Token(chunk) !in InheritedKeys
    ensures FilterAsWritten(seen, chunk) == Filter(seen, chunk)
  {
  }
}
