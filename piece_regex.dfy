/**
 * ECMAScript `RegExp.prototype.exec` for the patterns the core uses. Every such
 * pattern is a concatenation of pieces without back-references or look-around.
 * Each piece has a language (which text it can consume) and a priority order over
 * the lengths it may consume: longest first for a greedy quantifier, shortest
 * first for a lazy one. ECMAScript backtracking then returns, for the leftmost
 * start position that admits a match, the first vector of piece lengths in that
 * priority order. This module computes exactly that, and proves it sound (every
 * chunk is in its piece's language and the chunks spell a slice of the input) and
 * complete (whenever some decomposition exists, a match is found).
 */
module PieceRegex {
  import opened Wrappers
  import opened JsString

  /** The character classes that occur in the patterns. */
  datatype CharClass =
    | LetterOrSpace      // [A-Za-z\s]
    | Space              // \s
    | Digit              // \d
    | Upper              // [A-Z]
    | NotLineTerminator  // .
    | CommaOrSpace       // (?:,|\s)
    | DurationChar       // [\dh\s]
    | Currency           // [£$€¥₹]
    | DigitOrComma       // [\d,]

  predicate IsCurrencySymbol(c: char) {
    c == '£' || c == '$' || c == '€' || c == '¥' || c == '₹'
  }

  predicate InClass(k: CharClass, c: char) {
    match k
    case LetterOrSpace => IsLetter(c) || IsSpace(c)
    case Space => IsSpace(c)
    case Digit => IsDigit(c)
    case Upper => IsUpper(c)
    case NotLineTerminator => !IsLineTerminator(c)
    case CommaOrSpace => c == ',' || IsSpace(c)
    case DurationChar => IsDigit(c) || c == 'h' || IsSpace(c)
    case Currency => IsCurrencySymbol(c)
    case DigitOrComma => IsDigit(c) || c == ','
  }

  predicate AllIn(k: CharClass, w: string) {
    forall i :: 0 <= i < |w| ==> InClass(k, w[i])
  }

  /** `\d\d:\d\d` */
  predicate IsClock(w: string) {
    |w| == 5 && IsDigit(w[0]) && IsDigit(w[1]) && w[2] == ':' && IsDigit(w[3]) && IsDigit(w[4])
  }

  /** `\d{1,2}:\d{2}` */
  predicate IsShortClock(w: string) {
    IsClock(w) || (|w| == 4 && IsDigit(w[0]) && w[1] == ':' && IsDigit(w[2]) && IsDigit(w[3]))
  }

  /** `[\dh\s]+m` */
  predicate IsDuration(w: string) {
    |w| >= 2 && w[|w| - 1] == 'm' && AllIn(DurationChar, w[..|w| - 1])
  }

  /** `\+\d+` */
  predicate IsDayOffset(w: string) {
    |w| >= 2 && w[0] == '+' && AllIn(Digit, w[1..])
  }

  /** The pieces the patterns are made of. */
  datatype Token =
    | Chars(cls: CharClass, min: nat)  // cls* (min 0) or cls+ (min 1), greedy or lazy
    | Exactly(cls: CharClass, n: nat)  // cls{n}
    | Lit(text: string)                // a literal
    | ShortClock                       // \d{1,2}:\d{2}
    | Clock                            // \d{2}:\d{2}
    | Duration                         // [\dh\s]+m
    | OptDayOffset                     // (\+\d+)?
    | OptLowestFare                    // (?:Lowest fare\s*)?
    | StopCount                        // \d+ Stop
    | ArrivalClock                     // \d{2}:\d{2}\+?\d?
    | PkrAmount                        // PKR [\d,]+

  /** The language of a token: `w` is text the token can consume. */
  predicate Spells(t: Token, w: string) {
    match t
    case Chars(k, min) => |w| >= min && AllIn(k, w)
    case Exactly(k, n) => |w| == n && AllIn(k, w)
    case Lit(text) => w == text
    case ShortClock => IsShortClock(w)
    case Clock => IsClock(w)
    case Duration => IsDuration(w)
    case OptDayOffset => w == [] || IsDayOffset(w)
    case OptLowestFare => w == [] || (|w| >= 11 && w[..11] == "Lowest fare" && AllIn(Space, w[11..]))
    case StopCount => |w| >= 6 && AllIn(Digit, w[..|w| - 5]) && w[|w| - 5..] == " Stop"
    case ArrivalClock =>
      5 <= |w| <= 7 && IsClock(w[..5])
      && (|w| == 5
          || (|w| == 6 && (w[5] == '+' || IsDigit(w[5])))
          || (|w| == 7 && w[5] == '+' && IsDigit(w[6])))
    case PkrAmount => |w| >= 5 && w[..4] == "PKR " && AllIn(DigitOrComma, w[4..])
  }

  /**
   * The order in which a piece tries its lengths: greedy quantifiers try the
   * longest first, lazy ones the shortest first, and an optional group around a
   * lazy `+?` tries 1, 2, ... before skipping the group.
   */
  datatype Order = Greedy | Lazy | LazyThenSkip

  datatype Piece = Piece(token: Token, order: Order)

  function Down(n: nat): (r: seq<nat>)
    ensures forall k: nat :: k in r <==> k <= n
  {
    if n == 0 then [0] else [n] + Down(n - 1)
  }

  function Up(lo: nat, hi: nat): (r: seq<nat>)
    ensures forall k: nat :: k in r <==> lo <= k <= hi
    decreases hi - lo
  {
    if lo > hi then [] else [lo] + Up(lo + 1, hi)
  }

  /** Every length from 0 to `n`, each once, in the order the piece tries them. */
  function Lengths(o: Order, n: nat): (r: seq<nat>)
    ensures forall k: nat :: k in r <==> k <= n
  {
    match o
    case Greedy => Down(n)
    case Lazy => Up(0, n)
    case LazyThenSkip => Up(1, n) + [0]
  }

  /**
   * The priority between two lengths of one piece, stated on its own: a greedy
   * piece prefers the longer, a lazy one the shorter, and a lazy piece inside an
   * optional group prefers any non-empty length, shortest first, to skipping.
   */
  predicate Precedes(o: Order, a: nat, b: nat) {
    match o
    case Greedy => a > b
    case Lazy => a < b
    case LazyThenSkip => a != 0 && (b == 0 || a < b)
  }

  lemma {:induction false} DownAt(n: nat, i: nat)
    requires i < |Down(n)|
    ensures Down(n)[i] == n - i
  {
    if i > 0 {
      DownAt(n - 1, i - 1);
    }
  }

  lemma {:induction false} UpAt(lo: nat, hi: nat, i: nat)
    requires i < |Up(lo, hi)|
    ensures Up(lo, hi)[i] == lo + i
    decreases hi - lo
  {
    if i > 0 {
      UpAt(lo + 1, hi, i - 1);
    }
  }

  /** `Lengths` lists the lengths in priority order. */
  lemma LengthsInPriorityOrder(o: Order, n: nat, i: nat, j: nat)
    requires i < j < |Lengths(o, n)|
    ensures Precedes(o, Lengths(o, n)[i], Lengths(o, n)[j])
  {
    match o
    case Greedy =>
      DownAt(n, i);
      DownAt(n, j);
    case Lazy =>
      UpAt(0, n, i);
      UpAt(0, n, j);
    case LazyThenSkip =>
      var up := Up(1, n);
      assert Lengths(o, n) == up + [0];
      UpAt(1, n, i);
      if j < |up| {
        UpAt(1, n, j);
      }
  }

  /** All the chunks spelled one after the other. */
  function Concat(cs: seq<string>): string {
    if cs == [] then [] else cs[0] + Concat(cs[1..])
  }

  /** `cs` is one chunk per piece, each in its piece's language. */
  predicate SpellsAll(ps: seq<Piece>, cs: seq<string>) {
    |cs| == |ps| && forall k :: 0 <= k < |ps| ==> Spells(ps[k].token, cs[k])
  }

  /** The chunks found for `ps` starting exactly at `pos`, by backtracking in priority order. */
  function MatchFrom(ps: seq<Piece>, s: string, pos: nat): (r: Option<seq<string>>)
    requires pos <= |s|
    ensures r.Some? ==> SpellsAll(ps, r.value) && OccursAt(s, pos, Concat(r.value))
    decreases |ps|, 1, 0
  {
    if ps == [] then Some([]) else TryLengths(ps, s, pos, Lengths(ps[0].order, |s| - pos))
  }

  /** Tries the first piece with each length of `ks` in turn, backtracking on failure. */
  function TryLengths(ps: seq<Piece>, s: string, pos: nat, ks: seq<nat>): (r: Option<seq<string>>)
    requires ps != [] && pos <= |s|
    ensures r.Some? ==> SpellsAll(ps, r.value) && OccursAt(s, pos, Concat(r.value))
    decreases |ps|, 0, |ks|
  {
    if ks == [] then None
    else if pos + ks[0] <= |s| && Spells(ps[0].token, s[pos..pos + ks[0]]) then
      var c := s[pos..pos + ks[0]];
      match MatchFrom(ps[1..], s, pos + ks[0])
      case Some(rest) =>
        assert ([c] + rest)[1..] == rest;
        assert s[pos..pos + |c| + |Concat(rest)|] == c + s[pos + |c|..pos + |c| + |Concat(rest)|];
        assert forall k :: 1 <= k < |ps| ==> ps[k] == ps[1..][k - 1] && ([c] + rest)[k] == rest[k - 1];
        Some([c] + rest)
      case None => TryLengths(ps, s, pos, ks[1..])
    else TryLengths(ps, s, pos, ks[1..])
  }

  /** `cs` is a decomposition at `pos`: one chunk per piece, spelling the text from `pos` on. */
  predicate Decomposes(ps: seq<Piece>, s: string, pos: nat, cs: seq<string>) {
    pos <= |s| && SpellsAll(ps, cs) && OccursAt(s, pos, Concat(cs))
  }

  /**
   * `ds` comes before `cs` in backtracking order: at the first piece where they
   * differ, `ds` has a length the piece tries earlier.
   */
  predicate Earlier(ps: seq<Piece>, ds: seq<string>, cs: seq<string>)
    decreases |ps|
  {
    && |ps| > 0 && |ds| == |ps| && |cs| == |ps|
    && (|| Precedes(ps[0].order, |ds[0]|, |cs[0]|)
        || (ds[0] == cs[0] && Earlier(ps[1..], ds[1..], cs[1..])))
  }

  /** `cs` is the decomposition at `pos` that comes first in backtracking order. */
  ghost predicate PriorityFirst(ps: seq<Piece>, s: string, pos: nat, cs: seq<string>) {
    Decomposes(ps, s, pos, cs) && forall ds :: Decomposes(ps, s, pos, ds) ==> !Earlier(ps, ds, cs)
  }

  /** A decomposition splits into its first chunk and a decomposition of the rest. */
  lemma DecomposesTail(ps: seq<Piece>, s: string, pos: nat, ds: seq<string>)
    requires ps != [] && Decomposes(ps, s, pos, ds)
    ensures pos + |ds[0]| <= |s| && s[pos..pos + |ds[0]|] == ds[0]
    ensures Spells(ps[0].token, ds[0])
    ensures Decomposes(ps[1..], s, pos + |ds[0]|, ds[1..])
  {
    var k := |ds[0]|;
    assert Concat(ds) == ds[0] + Concat(ds[1..]);
    assert s[pos..pos + k] == s[pos..pos + |Concat(ds)|][..k];
    assert SpellsAll(ps[1..], ds[1..]) by {
      assert forall j :: 0 <= j < |ps| - 1 ==> ps[1..][j] == ps[j + 1] && ds[1..][j] == ds[j + 1];
    }
    assert s[pos + k..pos + k + |Concat(ds[1..])|] == s[pos..pos + |Concat(ds)|][k..];
  }

  /** `MatchFrom` returns the first decomposition in backtracking order. */
  lemma {:induction false} MatchFromPriorityFirst(ps: seq<Piece>, s: string, pos: nat)
    requires pos <= |s| && MatchFrom(ps, s, pos).Some?
    ensures PriorityFirst(ps, s, pos, MatchFrom(ps, s, pos).value)
    decreases |ps|, 1, 0
  {
    if ps != [] {
      var ks := Lengths(ps[0].order, |s| - pos);
      forall i, j | 0 <= i < j < |ks| ensures Precedes(ps[0].order, ks[i], ks[j]) {
        LengthsInPriorityOrder(ps[0].order, |s| - pos, i, j);
      }
      forall ds | Decomposes(ps, s, pos, ds) ensures |ds[0]| in ks {
        DecomposesTail(ps, s, pos, ds);
      }
      TryLengthsPriorityFirst(ps, s, pos, ks);
    }
  }

  /**
   * With `ks` in priority order and holding the first length of every
   * decomposition, `TryLengths` returns the first decomposition.
   */
  lemma {:induction false} TryLengthsPriorityFirst(ps: seq<Piece>, s: string, pos: nat, ks: seq<nat>)
    requires ps != [] && pos <= |s| && TryLengths(ps, s, pos, ks).Some?
    requires forall i, j :: 0 <= i < j < |ks| ==> Precedes(ps[0].order, ks[i], ks[j])
    requires forall ds :: Decomposes(ps, s, pos, ds) ==> |ds[0]| in ks
    ensures PriorityFirst(ps, s, pos, TryLengths(ps, s, pos, ks).value)
    decreases |ps|, 0, |ks|
  {
    if pos + ks[0] <= |s| && Spells(ps[0].token, s[pos..pos + ks[0]]) && MatchFrom(ps[1..], s, pos + ks[0]).Some? {
      MatchFromPriorityFirst(ps[1..], s, pos + ks[0]);
      TakenIsFirst(ps, s, pos, ks);
    } else {
      SkippedLength(ps, s, pos, ks);
      TryLengthsPriorityFirst(ps, s, pos, ks[1..]);
    }
  }

  /** When the first length of `ks` leads to a match, no decomposition comes before it. */
  lemma TakenIsFirst(ps: seq<Piece>, s: string, pos: nat, ks: seq<nat>)
    requires ps != [] && ks != [] && pos + ks[0] <= |s| && Spells(ps[0].token, s[pos..pos + ks[0]])
    requires MatchFrom(ps[1..], s, pos + ks[0]).Some?
    requires PriorityFirst(ps[1..], s, pos + ks[0], MatchFrom(ps[1..], s, pos + ks[0]).value)
    requires forall i, j :: 0 <= i < j < |ks| ==> Precedes(ps[0].order, ks[i], ks[j])
    requires forall ds :: Decomposes(ps, s, pos, ds) ==> |ds[0]| in ks
    ensures TryLengths(ps, s, pos, ks).Some?
    ensures PriorityFirst(ps, s, pos, TryLengths(ps, s, pos, ks).value)
  {
    var cs := TryLengths(ps, s, pos, ks).value;
    TakenChunks(ps, s, pos, ks);
    NoneBeforeTaken(ps, s, pos, ks, cs);
  }

  lemma TakenChunks(ps: seq<Piece>, s: string, pos: nat, ks: seq<nat>)
    requires ps != [] && ks != [] && pos + ks[0] <= |s| && Spells(ps[0].token, s[pos..pos + ks[0]])
    requires MatchFrom(ps[1..], s, pos + ks[0]).Some?
    ensures TryLengths(ps, s, pos, ks).Some?
    ensures var cs := TryLengths(ps, s, pos, ks).value;
      |cs| == |ps| && cs[0] == s[pos..pos + ks[0]] && cs[1..] == MatchFrom(ps[1..], s, pos + ks[0]).value
  {
    var c := s[pos..pos + ks[0]];
    var rest := MatchFrom(ps[1..], s, pos + ks[0]).value;
    assert TryLengths(ps, s, pos, ks).value == [c] + rest;
    assert ([c] + rest)[1..] == rest;
  }

  lemma NoneBeforeTaken(ps: seq<Piece>, s: string, pos: nat, ks: seq<nat>, cs: seq<string>)
    requires ps != [] && ks != [] && |cs| == |ps| && pos + ks[0] <= |s| && cs[0] == s[pos..pos + ks[0]]
    requires PriorityFirst(ps[1..], s, pos + ks[0], cs[1..])
    requires forall i, j :: 0 <= i < j < |ks| ==> Precedes(ps[0].order, ks[i], ks[j])
    requires forall ds :: Decomposes(ps, s, pos, ds) ==> |ds[0]| in ks
    ensures forall ds :: Decomposes(ps, s, pos, ds) ==> !Earlier(ps, ds, cs)
  {
    forall ds | Decomposes(ps, s, pos, ds) ensures !Earlier(ps, ds, cs) {
      DecomposesTail(ps, s, pos, ds);
      NotEarlierThanFirstLength(ps, ks, ds, cs);
    }
  }

  /** The order part of `TakenIsFirst`: a first length later in `ks` never comes earlier. */
  lemma NotEarlierThanFirstLength(ps: seq<Piece>, ks: seq<nat>, ds: seq<string>, cs: seq<string>)
    requires |ps| > 0 && |ds| == |ps| && |cs| == |ps| && ks != []
    requires |cs[0]| == ks[0] && |ds[0]| in ks
    requires forall i, j :: 0 <= i < j < |ks| ==> Precedes(ps[0].order, ks[i], ks[j])
    requires |ds[0]| == |cs[0]| ==> ds[0] == cs[0] && !Earlier(ps[1..], ds[1..], cs[1..])
    ensures !Earlier(ps, ds, cs)
  {
    if |ds[0]| != ks[0] {
      var j :| 0 <= j < |ks| && ks[j] == |ds[0]|;
      assert Precedes(ps[0].order, ks[0], ks[j]);
    }
  }

  /** A first length that leads to no match is the first length of no decomposition. */
  lemma SkippedLength(ps: seq<Piece>, s: string, pos: nat, ks: seq<nat>)
    requires ps != [] && ks != [] && pos <= |s|
    requires !(pos + ks[0] <= |s| && Spells(ps[0].token, s[pos..pos + ks[0]]) && MatchFrom(ps[1..], s, pos + ks[0]).Some?)
    requires forall ds :: Decomposes(ps, s, pos, ds) ==> |ds[0]| in ks
    ensures forall ds :: Decomposes(ps, s, pos, ds) ==> |ds[0]| in ks[1..]
  {
    forall ds | Decomposes(ps, s, pos, ds) ensures |ds[0]| in ks[1..] {
      DecomposesTail(ps, s, pos, ds);
      if |ds[0]| == ks[0] {
        MatchFromComplete(ps[1..], s, pos + ks[0], ds[1..]);
      }
      assert |ds[0]| in ks;
    }
  }

  /** A successful match: where it starts and the chunk each piece consumed. */
  datatype Match = Match(start: nat, chunks: seq<string>)

  /** Tries start positions `i`, `i + 1`, ..., `|s|` and returns the first that matches. */
  function Search(ps: seq<Piece>, s: string, i: nat): (r: Option<Match>)
    requires i <= |s|
    ensures r.Some? ==> i <= r.value.start <= |s| && MatchFrom(ps, s, r.value.start) == Some(r.value.chunks)
    ensures r.Some? ==> forall j :: i <= j < r.value.start ==> MatchFrom(ps, s, j).None?
    decreases |s| - i
  {
    match MatchFrom(ps, s, i)
    case Some(cs) => Some(Match(i, cs))
    case None => if i == |s| then None else Search(ps, s, i + 1)
  }

  /** `s.match(pattern)` for a pattern without the global flag. */
  function Exec(ps: seq<Piece>, s: string): (r: Option<Match>)
    ensures r.Some? ==> r.value.start <= |s| && SpellsAll(ps, r.value.chunks)
                        && OccursAt(s, r.value.start, Concat(r.value.chunks))
    ensures r.Some? ==> forall j :: 0 <= j < r.value.start ==> MatchFrom(ps, s, j).None?
  {
    Search(ps, s, 0)
  }

  /** The chunks `s.match(pattern)` returns are the first decomposition at its start in backtracking order. */
  lemma ExecPriorityFirst(ps: seq<Piece>, s: string)
    requires Exec(ps, s).Some?
    ensures PriorityFirst(ps, s, Exec(ps, s).value.start, Exec(ps, s).value.chunks)
  {
    MatchFromPriorityFirst(ps, s, Exec(ps, s).value.start);
  }

  /** Completeness of the backtracking: a decomposition at `pos` means a match at `pos`. */
  lemma {:induction false} MatchFromComplete(ps: seq<Piece>, s: string, pos: nat, cs: seq<string>)
    requires pos <= |s|
    requires SpellsAll(ps, cs) && OccursAt(s, pos, Concat(cs))
    ensures MatchFrom(ps, s, pos).Some?
    decreases |ps|, 1, 0
  {
    if ps != [] {
      DecomposesTail(ps, s, pos, cs);
      TryLengthsComplete(ps, s, pos, Lengths(ps[0].order, |s| - pos), cs);
    }
  }

  lemma {:induction false} TryLengthsComplete(ps: seq<Piece>, s: string, pos: nat, ks: seq<nat>, cs: seq<string>)
    requires ps != [] && pos <= |s|
    requires SpellsAll(ps, cs) && OccursAt(s, pos, Concat(cs))
    requires |cs[0]| in ks
    ensures TryLengths(ps, s, pos, ks).Some?
    decreases |ps|, 0, |ks|
  {
    DecomposesTail(ps, s, pos, cs);
    if ks[0] == |cs[0]| {
      MatchFromComplete(ps[1..], s, pos + ks[0], cs[1..]);
    } else if pos + ks[0] <= |s| && Spells(ps[0].token, s[pos..pos + ks[0]])
              && MatchFrom(ps[1..], s, pos + ks[0]).Some? {
    } else {
      TryLengthsComplete(ps, s, pos, ks[1..], cs);
    }
  }

  /** A decomposition at some position `j` at or after `i` means the search from `i` succeeds at or before `j`. */
  lemma {:induction false} SearchComplete(ps: seq<Piece>, s: string, i: nat, j: nat, cs: seq<string>)
    requires i <= j <= |s|
    requires SpellsAll(ps, cs) && OccursAt(s, j, Concat(cs))
    ensures Search(ps, s, i).Some? && Search(ps, s, i).value.start <= j
    decreases j - i
  {
    if MatchFrom(ps, s, i).None? {
      if i == j {
        MatchFromComplete(ps, s, j, cs);
      } else {
        SearchComplete(ps, s, i + 1, j, cs);
      }
    }
  }

  /** `s.match(pattern)` fails exactly when no decomposition occurs anywhere in `s`. */
  lemma ExecComplete(ps: seq<Piece>, s: string, j: nat, cs: seq<string>)
    requires j <= |s|
    requires SpellsAll(ps, cs) && OccursAt(s, j, Concat(cs))
    ensures Exec(ps, s).Some?
  {
    SearchComplete(ps, s, 0, j, cs);
  }

  /** Concatenation distributes over `+`. */
  lemma {:induction false} ConcatAppend(a: seq<string>, b: seq<string>)
    ensures Concat(a + b) == Concat(a) + Concat(b)
  {
    if a == [] {
      assert a + b == b;
    } else {
      assert (a + b)[1..] == a[1..] + b;
      ConcatAppend(a[1..], b);
    }
  }

  /** Chunks `k` and `k + 1` joined into one. */
  function Merge(cs: seq<string>, k: nat): (r: seq<string>)
    requires k + 1 < |cs|
    ensures |r| == |cs| - 1
  {
    cs[..k] + [cs[k] + cs[k + 1]] + cs[k + 2..]
  }

  lemma ConcatMerge(cs: seq<string>, k: nat)
    requires k + 1 < |cs|
    ensures Concat(Merge(cs, k)) == Concat(cs)
  {
    var a, x, y, b := cs[..k], cs[k], cs[k + 1], cs[k + 2..];
    SplitPair(cs, k);
    ConcatAround(a, [x, y], b);
    ConcatPair(x, y);
    ConcatAround(a, [x + y], b);
    ConcatSingle(x + y);
  }

  lemma SplitPair(cs: seq<string>, k: nat)
    requires k + 1 < |cs|
    ensures cs == cs[..k] + [cs[k], cs[k + 1]] + cs[k + 2..]
  {
    assert cs[..k + 2] == cs[..k] + [cs[k], cs[k + 1]] by {
      assert cs[..k + 2] == cs[..k] + cs[k..k + 2];
    }
    assert cs == cs[..k + 2] + cs[k + 2..];
  }

  lemma ConcatAround(a: seq<string>, m: seq<string>, b: seq<string>)
    ensures Concat(a + m + b) == Concat(a) + Concat(m) + Concat(b)
  {
    ConcatAppend(a + m, b);
    ConcatAppend(a, m);
  }

  lemma ConcatSingle(x: string)
    ensures Concat([x]) == x
  {
    assert [x][1..] == [];
  }

  lemma ConcatPair(x: string, y: string)
    ensures Concat([x, y]) == x + y
  {
    assert [x, y][1..] == [y];
    ConcatSingle(y);
  }

  /** Every character of a chunk is a character of the concatenation. */
  lemma {:induction false} ChunkCharInConcat(cs: seq<string>, k: nat, i: nat)
    requires k < |cs| && i < |cs[k]|
    ensures cs[k][i] in Concat(cs)
  {
    if k == 0 {
      assert Concat(cs) == cs[0] + Concat(cs[1..]);
      assert Concat(cs)[i] == cs[0][i];
    } else {
      ChunkCharInConcat(cs[1..], k - 1, i);
      assert Concat(cs) == cs[0] + Concat(cs[1..]);
    }
  }

  lemma SliceCharInInput(s: string, i: nat, w: string, x: char)
    requires OccursAt(s, i, w) && x in w
    ensures x in s
  {
    var p :| 0 <= p < |w| && w[p] == x;
    assert s[i + p] == s[i..i + |w|][p];
  }

  /** Every character of a chunk of a match occurs in the matched string. */
  lemma ChunkCharInInput(ps: seq<Piece>, s: string, m: Match, k: nat, i: nat)
    requires Exec(ps, s) == Some(m)
    requires k < |m.chunks| && i < |m.chunks[k]|
    ensures m.chunks[k][i] in s
  {
    ChunkCharInConcat(m.chunks, k, i);
    var w := Concat(m.chunks);
    SliceCharInInput(s, m.start, w, m.chunks[k][i]);
  }
}
