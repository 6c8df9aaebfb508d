/** The layout pass: every word is sized, the words are offered largest first to the chosen
    search, each with a bounded number of calls, and the words that found a box are collected. */
module Layout {
  import opened Wrappers
  import opened Geometry
  import opened RealArith
  import opened Sizing
  import opened Ordering
  import opened Placement

  /** The layout style: one of the four the component knows, or any other string, for which
      no search runs. */
  datatype Shape = Circular | Horizontal | Loose | Archimedean | Unknown

  /** The component's layout props: container size, style and font-size range. */
  datatype Settings = Settings(width: real, height: real, shape: Shape,
                               minFontSize: real, maxFontSize: real)

  /** Calls of the search per word before the word is dropped. */
  const MaxAttempts: nat := 100

  /** The result of one call of a search: the box found, and the next unused draw. */
  datatype Outcome = Outcome(position: Option<Position>, nextDraw: nat)

  /** The result of the retry loop for one word: the outcome of its last call and how many calls it made. */
  datatype Trial = Trial(position: Option<Position>, nextDraw: nat, attempts: nat)

  /** The searches that use no randomness. */
  predicate Deterministic(shape: Shape)
  {
    shape.Circular? || shape.Archimedean? || shape.Unknown?
  }

  /** The box was found for a word of this extent and collides with no placed word. */
  predicate Fits(p: Position, width: real, height: real, placed: seq<PlacedWord>)
  {
    !CheckCollision(p, placed) && p.width == width && p.height == height
  }

  /** Where a box found by a search of this shape lies: in the container for the grid and the
      archimedean spiral, in it for the loose search when the draws are in [0, 1) and the box
      fits, anywhere for the circular spiral. */
  ghost predicate Contained(shape: Shape, p: Position, containerWidth: real, containerHeight: real, env: Env)
  {
    match shape
    case Archimedean => Inside(p, containerWidth, containerHeight)
    case Horizontal => Inside(p, containerWidth, containerHeight)
    case Loose =>
      DrawsInUnitInterval(env) && p.width <= containerWidth && p.height <= containerHeight ==>
        Inside(p, containerWidth, containerHeight)
    case Circular => true
    case Unknown => true
  }

  /** One call of `findCircularPosition` around the centre; it uses no draws. */
  function CircularSearch(centerX: real, centerY: real, width: real, height: real,
                          placed: seq<PlacedWord>, env: Env, draw: nat): (o: Outcome)
    ensures o.position.Some? ==> !CheckCollision(o.position.value, placed)
    ensures o.nextDraw == draw
  {
    Outcome(Scan(CircularCandidates(centerX, centerY, width, height, env), placed, Unbounded), draw)
  }

  /** One call of `findArchimedeanPosition` around the centre, bounded by the box of twice the
      centre; it uses no draws. */
  function ArchimedeanSearch(centerX: real, centerY: real, width: real, height: real,
                             placed: seq<PlacedWord>, env: Env, draw: nat): (o: Outcome)
    ensures o.position.Some? ==> !CheckCollision(o.position.value, placed)
    ensures o.nextDraw == draw
  {
    Outcome(Scan(ArchimedeanCandidates(centerX, centerY, width, height, env), placed,
                 Within(centerX * 2.0, centerY * 2.0)), draw)
  }

  /** One call of `findHorizontalPosition`: three draws per grid point, then the comparator's. */
  function HorizontalSearch(containerWidth: real, containerHeight: real, width: real, height: real,
                            placed: seq<PlacedWord>, env: Env, draw: nat): (o: Outcome)
    ensures o.position.Some? ==> !CheckCollision(o.position.value, placed)
    ensures o.nextDraw >= draw + 3 * RadiusCount(containerWidth, containerHeight) * AngleCount()
  {
    Outcome(Scan(ShuffledCandidates(containerWidth, containerHeight, width, height, env, draw), placed, Unbounded),
            draw + HorizontalDraws(containerWidth, containerHeight, width, height, env, draw))
  }

  /** One call of `findLoosePosition`: two draws per candidate looked at. */
  function LooseSearch(containerWidth: real, containerHeight: real, width: real, height: real,
                       placed: seq<PlacedWord>, env: Env, draw: nat): (o: Outcome)
    ensures o.position.Some? ==> !CheckCollision(o.position.value, placed)
    ensures draw <= o.nextDraw <= draw + 2 * LooseAttempts
  {
    var cands := LooseCandidates(containerWidth, containerHeight, width, height, env, draw);
    Outcome(Scan(cands, placed, Unbounded), draw + 2 * Examined(cands, placed, Unbounded))
  }

  /** One call of the search the shape selects. */
  function Search(shape: Shape, containerWidth: real, containerHeight: real, width: real, height: real,
                  placed: seq<PlacedWord>, env: Env, draw: nat): (o: Outcome)
    ensures o.position.Some? ==> !CheckCollision(o.position.value, placed)
    ensures o.nextDraw >= draw
    ensures shape.Unknown? ==> o.position.None?
  {
    match shape
    case Circular => CircularSearch(Half(containerWidth), Half(containerHeight), width, height, placed, env, draw)
    case Archimedean => ArchimedeanSearch(Half(containerWidth), Half(containerHeight), width, height, placed, env, draw)
    case Horizontal => HorizontalSearch(containerWidth, containerHeight, width, height, placed, env, draw)
    case Loose => LooseSearch(containerWidth, containerHeight, width, height, placed, env, draw)
    case Unknown => Outcome(None, draw)
  }

  /** Every search returns a box that collides with no placed word, never moves the draw cursor
      back, and the deterministic ones leave it where it was. */
  lemma SearchMeets(shape: Shape, containerWidth: real, containerHeight: real, width: real, height: real,
                    placed: seq<PlacedWord>, env: Env, draw: nat)
    ensures var o := Search(shape, containerWidth, containerHeight, width, height, placed, env, draw);
            (o.position.Some? ==> !CheckCollision(o.position.value, placed)) &&
            (Deterministic(shape) ==> o.nextDraw == draw) &&
            o.nextDraw >= draw
  {
  }

  /** A box the grid search returns has the word's extent and lies in the container, given
      that the random reordering keeps the grid's entries. */
  lemma HorizontalSearchLands(containerWidth: real, containerHeight: real, width: real, height: real,
                              placed: seq<PlacedWord>, env: Env, draw: nat)
    requires ShuffleIsPermutation(env)
    ensures var o := HorizontalSearch(containerWidth, containerHeight, width, height, placed, env, draw);
            o.position.Some? ==> Fits(o.position.value, width, height, placed) &&
                                 Inside(o.position.value, containerWidth, containerHeight)
  {
    ShuffledCandidatesInside(containerWidth, containerHeight, width, height, env, draw);
  }

  /** A box the loose search returns has the word's extent, and lies in the container when the
      draws are in [0, 1) and the word fits. */
  lemma LooseSearchLands(containerWidth: real, containerHeight: real, width: real, height: real,
                         placed: seq<PlacedWord>, env: Env, draw: nat)
    ensures var o := LooseSearch(containerWidth, containerHeight, width, height, placed, env, draw);
            o.position.Some? ==>
              Fits(o.position.value, width, height, placed) &&
              (DrawsInUnitInterval(env) && width <= containerWidth && height <= containerHeight ==>
                 Inside(o.position.value, containerWidth, containerHeight))
  {
    var cands := LooseCandidates(containerWidth, containerHeight, width, height, env, draw);
    ScanKeepsSize(cands, placed, Unbounded, width, height);
    var k := FirstAdmissible(cands, placed, Unbounded);
    if k < |cands| && DrawsInUnitInterval(env) && width <= containerWidth && height <= containerHeight {
      LooseCandidateInside(k, containerWidth, containerHeight, width, height, env, draw);
    }
  }

  /** Every box a search returns has the word's extent and lies where its shape promises,
      given that the grid's random reordering keeps its entries. */
  lemma SearchLands(shape: Shape, containerWidth: real, containerHeight: real, width: real, height: real,
                    placed: seq<PlacedWord>, env: Env, draw: nat)
    requires ShuffleIsPermutation(env)
    ensures var o := Search(shape, containerWidth, containerHeight, width, height, placed, env, draw);
            o.position.Some? ==> Fits(o.position.value, width, height, placed) &&
                                 Contained(shape, o.position.value, containerWidth, containerHeight, env)
  {
    var centerX := Half(containerWidth);
    var centerY := Half(containerHeight);
    match shape
    case Circular =>
      ScanKeepsSize(CircularCandidates(centerX, centerY, width, height, env), placed, Unbounded, width, height);
    case Archimedean =>
      ScanKeepsSize(ArchimedeanCandidates(centerX, centerY, width, height, env), placed,
                    Within(centerX * 2.0, centerY * 2.0), width, height);
      assert centerX * 2.0 == containerWidth && centerY * 2.0 == containerHeight;
    case Horizontal =>
      HorizontalSearchLands(containerWidth, containerHeight, width, height, placed, env, draw);
    case Loose =>
      LooseSearchLands(containerWidth, containerHeight, width, height, placed, env, draw);
    case Unknown =>
  }

  /** The deterministic searches return the same box whatever the draw cursor. */
  lemma SearchIgnoresDraws(shape: Shape, containerWidth: real, containerHeight: real, width: real, height: real,
                           placed: seq<PlacedWord>, env: Env, d1: nat, d2: nat)
    requires Deterministic(shape)
    ensures Search(shape, containerWidth, containerHeight, width, height, placed, env, d1).position ==
            Search(shape, containerWidth, containerHeight, width, height, placed, env, d2).position
  {
  }

  /** The retry loop for one word with `budget` calls left: call the search until a call finds
      a box or the budget is spent. */
  function Retry(shape: Shape, containerWidth: real, containerHeight: real, width: real, height: real,
                 placed: seq<PlacedWord>, env: Env, draw: nat, budget: nat): (t: Trial)
    requires budget >= 1
    ensures 1 <= t.attempts <= budget
    ensures t.position.None? ==> t.attempts == budget
    ensures t.position.Some? ==> !CheckCollision(t.position.value, placed)
    ensures Deterministic(shape) ==> t.nextDraw == draw
    ensures t.nextDraw >= draw
    decreases budget
  {
    var o := Search(shape, containerWidth, containerHeight, width, height, placed, env, draw);
    SearchMeets(shape, containerWidth, containerHeight, width, height, placed, env, draw);
    if o.position.Some? || budget == 1 then Trial(o.position, o.nextDraw, 1)
    else
      var t := Retry(shape, containerWidth, containerHeight, width, height, placed, env, o.nextDraw, budget - 1);
      Trial(t.position, t.nextDraw, t.attempts + 1)
  }

  /** A box found by the retry loop has the word's extent and lies where its shape promises. */
  lemma {:induction false} RetryLands(shape: Shape, containerWidth: real, containerHeight: real,
                                      width: real, height: real, placed: seq<PlacedWord>, env: Env,
                                      draw: nat, budget: nat)
    requires ShuffleIsPermutation(env) && budget >= 1
    ensures var t := Retry(shape, containerWidth, containerHeight, width, height, placed, env, draw, budget);
            t.position.Some? ==> Fits(t.position.value, width, height, placed) &&
                                 Contained(shape, t.position.value, containerWidth, containerHeight, env)
    decreases budget
  {
    SearchLands(shape, containerWidth, containerHeight, width, height, placed, env, draw);
    var o := Search(shape, containerWidth, containerHeight, width, height, placed, env, draw);
    if o.position.None? && budget > 1 {
      RetryLands(shape, containerWidth, containerHeight, width, height, placed, env, o.nextDraw, budget - 1);
    }
  }

  /** For the deterministic searches the retry loop is one call: it either finds the box of the
      first call at once, or makes all its calls in vain. */
  lemma {:induction false} RetryOfDeterministicSearch(shape: Shape, containerWidth: real, containerHeight: real,
                                                      width: real, height: real, placed: seq<PlacedWord>,
                                                      env: Env, draw: nat, budget: nat)
    requires budget >= 1 && Deterministic(shape)
    ensures var o := Search(shape, containerWidth, containerHeight, width, height, placed, env, draw);
            Retry(shape, containerWidth, containerHeight, width, height, placed, env, draw, budget) ==
            Trial(o.position, draw, if o.position.Some? then 1 else budget)
    decreases budget
  {
    var o := Search(shape, containerWidth, containerHeight, width, height, placed, env, draw);
    if o.position.None? && budget > 1 {
      RetryOfDeterministicSearch(shape, containerWidth, containerHeight, width, height, placed, env, draw, budget - 1);
    }
  }

  /** The body of the retry loop: the call of the search the shape selects. */
  method SearchOnce(shape: Shape, containerWidth: real, containerHeight: real, width: real, height: real,
                    placedWords: seq<PlacedWord>, env: Env, draw: nat)
    returns (position: Option<Position>, nextDraw: nat)
    ensures Outcome(position, nextDraw) ==
            Search(shape, containerWidth, containerHeight, width, height, placedWords, env, draw)
  {
    var centerX := Half(containerWidth);
    var centerY := Half(containerHeight);
    nextDraw := draw;
    match shape {
      case Circular =>
        position := FindCircularPosition(centerX, centerY, width, height, placedWords, env);
        assert Outcome(position, nextDraw) ==
               CircularSearch(centerX, centerY, width, height, placedWords, env, draw);
      case Horizontal =>
        position, nextDraw := FindHorizontalPosition(containerWidth, containerHeight, width, height,
                                                     placedWords, env, draw);
        assert Outcome(position, nextDraw) ==
               HorizontalSearch(containerWidth, containerHeight, width, height, placedWords, env, draw);
      case Loose =>
        position, nextDraw := FindLoosePosition(containerWidth, containerHeight, width, height,
                                                placedWords, env, draw);
        assert Outcome(position, nextDraw) ==
               LooseSearch(containerWidth, containerHeight, width, height, placedWords, env, draw);
      case Archimedean =>
        position := FindArchimedeanPosition(centerX, centerY, width, height, placedWords, env);
        assert Outcome(position, nextDraw) ==
               ArchimedeanSearch(centerX, centerY, width, height, placedWords, env, draw);
      case Unknown =>
        position := None;
    }
  }

  /** A trial of the remaining calls, counted after k calls already made. */
  function Later(t: Trial, k: nat): (r: Trial)
    ensures r.position == t.position && r.nextDraw == t.nextDraw && r.attempts == t.attempts + k
  {
    Trial(t.position, t.nextDraw, t.attempts + k)
  }

  /** What the retry loop ends with when it is in the given state: the state itself once a box
      is found or the budget is spent, otherwise what the remaining calls give. */
  ghost function Resume(shape: Shape, containerWidth: real, containerHeight: real, width: real, height: real,
                        placed: seq<PlacedWord>, env: Env, position: Option<Position>, nextDraw: nat,
                        attempts: nat): Trial
  {
    if position.Some? || attempts >= MaxAttempts then Trial(position, nextDraw, attempts)
    else Later(Retry(shape, containerWidth, containerHeight, width, height, placed, env, nextDraw,
                     MaxAttempts - attempts), attempts)
  }

  /** One turn of the retry loop: making the next call does not change what the loop ends with. */
  lemma ResumeStep(shape: Shape, containerWidth: real, containerHeight: real, width: real, height: real,
                   placed: seq<PlacedWord>, env: Env, nextDraw: nat, attempts: nat, o: Outcome)
    requires attempts < MaxAttempts
    requires o == Search(shape, containerWidth, containerHeight, width, height, placed, env, nextDraw)
    ensures Resume(shape, containerWidth, containerHeight, width, height, placed, env, None, nextDraw, attempts) ==
            Resume(shape, containerWidth, containerHeight, width, height, placed, env, o.position, o.nextDraw,
                   attempts + 1)
  {
  }

  /** The loop starts with what the whole retry gives. */
  lemma ResumeStart(shape: Shape, containerWidth: real, containerHeight: real, width: real, height: real,
                    placed: seq<PlacedWord>, env: Env, draw: nat)
    ensures Resume(shape, containerWidth, containerHeight, width, height, placed, env, None, draw, 0) ==
            Retry(shape, containerWidth, containerHeight, width, height, placed, env, draw, MaxAttempts)
  {
  }

  /** Once the loop stops, its state is what it ends with. */
  lemma ResumeDone(shape: Shape, containerWidth: real, containerHeight: real, width: real, height: real,
                   placed: seq<PlacedWord>, env: Env, position: Option<Position>, nextDraw: nat, attempts: nat)
    requires position.Some? || attempts >= MaxAttempts
    ensures Resume(shape, containerWidth, containerHeight, width, height, placed, env, position, nextDraw, attempts) ==
            Trial(position, nextDraw, attempts)
  {
  }

  /** One turn of the loop body: the search call, which leaves what the loop ends with unchanged. */
  method Attempt(shape: Shape, containerWidth: real, containerHeight: real, width: real, height: real,
                 placedWords: seq<PlacedWord>, env: Env, draw: nat, ghost attempts: nat)
    returns (position: Option<Position>, nextDraw: nat)
    requires attempts < MaxAttempts
    ensures Resume(shape, containerWidth, containerHeight, width, height, placedWords, env, None, draw, attempts) ==
            Resume(shape, containerWidth, containerHeight, width, height, placedWords, env, position, nextDraw,
                   attempts + 1)
  {
    position, nextDraw := SearchOnce(shape, containerWidth, containerHeight, width, height, placedWords, env, draw);
    ResumeStep(shape, containerWidth, containerHeight, width, height, placedWords, env, draw, attempts,
               Outcome(position, nextDraw));
  }

  /** The `while (!position && attempts < maxAttempts)` loop for one word. */
  method PlaceWord(shape: Shape, containerWidth: real, containerHeight: real, width: real, height: real,
                   placedWords: seq<PlacedWord>, env: Env, draw: nat)
    returns (position: Option<Position>, nextDraw: nat, attempts: nat)
    ensures Trial(position, nextDraw, attempts) ==
            Retry(shape, containerWidth, containerHeight, width, height, placedWords, env, draw, MaxAttempts)
  {
    ghost var goal := Resume(shape, containerWidth, containerHeight, width, height, placedWords, env,
                             None, draw, 0);
    ResumeStart(shape, containerWidth, containerHeight, width, height, placedWords, env, draw);
    position := None;
    nextDraw := draw;
    attempts := 0;
    while position.None? && attempts < MaxAttempts
      invariant attempts <= MaxAttempts
      invariant goal == Resume(shape, containerWidth, containerHeight, width, height, placedWords, env,
                               position, nextDraw, attempts)
      decreases MaxAttempts - attempts
    {
      position, nextDraw := Attempt(shape, containerWidth, containerHeight, width, height,
                                    placedWords, env, nextDraw, attempts);
      attempts := attempts + 1;
    }
    ResumeDone(shape, containerWidth, containerHeight, width, height, placedWords, env,
               position, nextDraw, attempts);
  }

  /** What the pass carries from word to word: the words placed so far and the draw cursor. */
  datatype Progress = Progress(placed: seq<PlacedWord>, nextDraw: nat)

  /** The font size a word gets in a pass whose largest value is maxValue. */
  function FontSizeOf(w: Word, maxValue: real, s: Settings): (f: real)
    ensures f >= s.minFontSize
    ensures s.minFontSize <= s.maxFontSize ==> f <= s.maxFontSize
  {
    FontSize(w.value, maxValue, s.minFontSize, s.maxFontSize)
  }

  /** One word of the pass: size it, run the retry loop, keep the box if one was found. */
  function Step(w: Word, maxValue: real, s: Settings, env: Env, state: Progress): (r: Progress)
    ensures r.nextDraw >= state.nextDraw
  {
    var fontSize := FontSizeOf(w, maxValue, s);
    var size := WordDimensions(w.text, fontSize);
    var t := Retry(s.shape, s.width, s.height, size.width, size.height, state.placed, env, state.nextDraw, MaxAttempts);
    Progress(if t.position.Some? then state.placed + [Place(w, t.position.value, fontSize)] else state.placed,
             t.nextDraw)
  }

  /** A word whose first search call finds a box is placed with that very box: the pass drops
      a word only when its search fails on the first call. */
  lemma StepTakesFirstFind(w: Word, maxValue: real, s: Settings, env: Env, state: Progress)
    ensures var fontSize := FontSizeOf(w, maxValue, s);
            var size := WordDimensions(w.text, fontSize);
            var o := Search(s.shape, s.width, s.height, size.width, size.height, state.placed, env, state.nextDraw);
            o.position.Some? ==>
              Step(w, maxValue, s, env, state).placed == state.placed + [Place(w, o.position.value, fontSize)]
  {
  }

  /** The `sortedWords.forEach` loop from a given state. */
  function PlaceAll(ws: seq<Word>, maxValue: real, s: Settings, env: Env, state: Progress): (r: Progress)
    ensures |r.placed| <= |state.placed| + |ws|
    ensures r.nextDraw >= state.nextDraw
    decreases |ws|
  {
    if ws == [] then state
    else PlaceAll(ws[1..], maxValue, s, env, Step(ws[0], maxValue, s, env, state))
  }

  /** `calculateLayout`: nothing for a container with a zero side, otherwise the words placed
      and the draw cursor after the pass. */
  function LayoutOf(words: seq<Word>, s: Settings, env: Env, draw: nat): (r: Option<Progress>)
    ensures r.None? <==> s.width == 0.0 || s.height == 0.0
    ensures r.Some? ==> |r.value.placed| <= |words|
  {
    if s.width == 0.0 || s.height == 0.0 then None
    else Some(PlaceAll(SortByValueDesc(words), MaxValue(words), s, env, Progress([], draw)))
  }

  /** The pass itself; `placed` is what the component hands to `onWordsPlaced`, None when it
      returns early without calling it. */
  method CalculateLayout(words: seq<Word>, s: Settings, env: Env, draw: nat)
    returns (placed: Option<seq<PlacedWord>>, nextDraw: nat)
    ensures LayoutOf(words, s, env, draw) == if placed.Some? then Some(Progress(placed.value, nextDraw)) else None
    ensures placed.None? ==> nextDraw == draw
  {
    if s.width == 0.0 || s.height == 0.0 {
      return None, draw;
    }
    var maxValue := MaxValue(words);
    var sortedWords := SortByValueDesc(words);
    ghost var goal := PlaceAll(sortedWords, maxValue, s, env, Progress([], draw));
    var newPlacedWords: seq<PlacedWord> := [];
    nextDraw := draw;
    for i := 0 to |sortedWords|
      invariant PlaceAll(sortedWords[i..], maxValue, s, env, Progress(newPlacedWords, nextDraw)) == goal
    {
      var word := sortedWords[i];
      var fontSize := FontSize(word.value, maxValue, s.minFontSize, s.maxFontSize);
      var size := WordDimensions(word.text, fontSize);
      var position, d, attempts := PlaceWord(s.shape, s.width, s.height, size.width, size.height,
                                             newPlacedWords, env, nextDraw);
      ghost var before := Progress(newPlacedWords, nextDraw);
      if position.Some? {
        newPlacedWords := newPlacedWords + [Place(word, position.value, fontSize)];
      }
      nextDraw := d;
      assert Step(word, maxValue, s, env, before) == Progress(newPlacedWords, nextDraw);
      assert sortedWords[i..][1..] == sortedWords[i + 1..];
    }
    assert sortedWords[|sortedWords|..] == [];
    return Some(newPlacedWords), nextDraw;
  }

  // ---------------------------------------------------------------- what a pass keeps

  /** A placed word carries the font size of its value. */
  predicate FontSized(p: PlacedWord, maxValue: real, s: Settings)
  {
    p.fontSize == FontSize(p.value, maxValue, s.minFontSize, s.maxFontSize)
  }

  predicate AllFontSized(placed: seq<PlacedWord>, maxValue: real, s: Settings)
  {
    forall i :: 0 <= i < |placed| ==> FontSized(placed[i], maxValue, s)
  }

  /** A placed word has the box estimated for its font size, at a place its shape promises. */
  ghost predicate Landed(p: PlacedWord, s: Settings, env: Env)
  {
    p.width == WordDimensions(p.text, p.fontSize).width &&
    p.height == WordDimensions(p.text, p.fontSize).height &&
    Contained(s.shape, p.Box(), s.width, s.height, env)
  }

  ghost predicate AllLanded(placed: seq<PlacedWord>, s: Settings, env: Env)
  {
    forall i :: 0 <= i < |placed| ==> Landed(placed[i], s, env)
  }

  /** One step keeps the placed words and adds at most the offered word. */
  lemma StepAppends(w: Word, maxValue: real, s: Settings, env: Env, state: Progress)
    ensures var r := Step(w, maxValue, s, env, state).placed;
            r == state.placed || (|r| == |state.placed| + 1 && r == state.placed + [r[|state.placed|]] &&
                                  r[|state.placed|].AsWord() == w)
  {
  }

  /** One word keeps the words already placed and adds at most one. */
  lemma StepExtends(w: Word, maxValue: real, s: Settings, env: Env, state: Progress)
    ensures var r := Step(w, maxValue, s, env, state).placed;
            |state.placed| <= |r| <= |state.placed| + 1 && r[..|state.placed|] == state.placed
  {
    var r := Step(w, maxValue, s, env, state).placed;
    assert r == state.placed || r == state.placed + [r[|r| - 1]];
  }

  /** The pass only appends: the words placed before are kept, in place. */
  lemma {:induction false} PlaceAllExtends(ws: seq<Word>, maxValue: real, s: Settings, env: Env, state: Progress)
    ensures var r := PlaceAll(ws, maxValue, s, env, state).placed;
            |state.placed| <= |r| && r[..|state.placed|] == state.placed
    decreases |ws|
  {
    if ws != [] {
      var next := Step(ws[0], maxValue, s, env, state);
      StepExtends(ws[0], maxValue, s, env, state);
      PlaceAllExtends(ws[1..], maxValue, s, env, next);
      var r := PlaceAll(ws[1..], maxValue, s, env, next).placed;
      assert PlaceAll(ws, maxValue, s, env, state).placed == r;
      assert r[..|next.placed|][..|state.placed|] == r[..|state.placed|];
    }
  }

  /** No two words the pass places collide. */
  lemma {:induction false} PlaceAllNonOverlapping(ws: seq<Word>, maxValue: real, s: Settings, env: Env, state: Progress)
    requires NonOverlapping(state.placed)
    ensures NonOverlapping(PlaceAll(ws, maxValue, s, env, state).placed)
    decreases |ws|
  {
    if ws != [] {
      var fontSize := FontSizeOf(ws[0], maxValue, s);
      var size := WordDimensions(ws[0].text, fontSize);
      var t := Retry(s.shape, s.width, s.height, size.width, size.height, state.placed, env, state.nextDraw, MaxAttempts);
      if t.position.Some? {
        AppendKeepsNonOverlapping(state.placed, Place(ws[0], t.position.value, fontSize));
      }
      PlaceAllNonOverlapping(ws[1..], maxValue, s, env, Step(ws[0], maxValue, s, env, state));
    }
  }

  /** One step keeps the placed words a subsequence of the words offered so far. */
  lemma StepSubsequence(w: Word, maxValue: real, s: Settings, env: Env, state: Progress, offered: seq<Word>)
    requires IsSubsequence(Words(state.placed), offered)
    ensures IsSubsequence(Words(Step(w, maxValue, s, env, state).placed), offered + [w])
  {
    var next := Step(w, maxValue, s, env, state);
    StepAppends(w, maxValue, s, env, state);
    if next.placed == state.placed {
      SubsequenceSkip(Words(state.placed), offered, w);
    } else {
      WordsAppend(state.placed, next.placed[|state.placed|]);
      SubsequenceKeep(Words(state.placed), offered, w);
    }
  }

  /** The words the pass places are the words offered to it, less the ones it dropped, in order. */
  lemma {:induction false} PlaceAllSubsequence(ws: seq<Word>, maxValue: real, s: Settings, env: Env,
                                               state: Progress, offered: seq<Word>)
    requires IsSubsequence(Words(state.placed), offered)
    ensures IsSubsequence(Words(PlaceAll(ws, maxValue, s, env, state).placed), offered + ws)
    decreases |ws|
  {
    if ws == [] {
      assert offered + ws == offered;
    } else {
      assert offered + [ws[0]] + ws[1..] == offered + ws;
      StepSubsequence(ws[0], maxValue, s, env, state, offered);
      PlaceAllSubsequence(ws[1..], maxValue, s, env, Step(ws[0], maxValue, s, env, state), offered + [ws[0]]);
    }
  }

  /** Every word the pass places has the font size of its value. */
  lemma {:induction false} PlaceAllFontSized(ws: seq<Word>, maxValue: real, s: Settings, env: Env, state: Progress)
    requires AllFontSized(state.placed, maxValue, s)
    ensures AllFontSized(PlaceAll(ws, maxValue, s, env, state).placed, maxValue, s)
    decreases |ws|
  {
    if ws != [] {
      PlaceAllFontSized(ws[1..], maxValue, s, env, Step(ws[0], maxValue, s, env, state));
    }
  }

  lemma AppendLanded(placed: seq<PlacedWord>, p: PlacedWord, s: Settings, env: Env)
    requires AllLanded(placed, s, env) && Landed(p, s, env)
    ensures AllLanded(placed + [p], s, env)
  {
    forall i | 0 <= i < |placed| + 1
      ensures Landed((placed + [p])[i], s, env)
    {
      if i < |placed| {
        assert (placed + [p])[i] == placed[i];
      }
    }
  }

  /** The word one step places has the box of its font size and lies where its shape promises. */
  lemma StepLanded(w: Word, maxValue: real, s: Settings, env: Env, state: Progress)
    requires ShuffleIsPermutation(env) && AllLanded(state.placed, s, env)
    ensures AllLanded(Step(w, maxValue, s, env, state).placed, s, env)
  {
    var fontSize := FontSizeOf(w, maxValue, s);
    var size := WordDimensions(w.text, fontSize);
    var t := Retry(s.shape, s.width, s.height, size.width, size.height, state.placed, env, state.nextDraw, MaxAttempts);
    RetryLands(s.shape, s.width, s.height, size.width, size.height, state.placed, env, state.nextDraw, MaxAttempts);
    if t.position.Some? {
      var p := Place(w, t.position.value, fontSize);
      assert Landed(p, s, env);
      AppendLanded(state.placed, p, s, env);
      assert Step(w, maxValue, s, env, state).placed == state.placed + [p];
    }
  }

  /** Every word the pass places has the box of its font size and lies where its shape promises. */
  lemma {:induction false} PlaceAllLanded(ws: seq<Word>, maxValue: real, s: Settings, env: Env, state: Progress)
    requires ShuffleIsPermutation(env) && AllLanded(state.placed, s, env)
    ensures AllLanded(PlaceAll(ws, maxValue, s, env, state).placed, s, env)
    decreases |ws|
  {
    if ws != [] {
      StepLanded(ws[0], maxValue, s, env, state);
      PlaceAllLanded(ws[1..], maxValue, s, env, Step(ws[0], maxValue, s, env, state));
    }
  }

  /** With a deterministic search the pass uses no draws, and what it places does not depend
      on the draw cursor. */
  lemma {:induction false} PlaceAllDeterministic(ws: seq<Word>, maxValue: real, s: Settings, env: Env,
                                                 placed: seq<PlacedWord>, d1: nat, d2: nat)
    requires Deterministic(s.shape)
    ensures PlaceAll(ws, maxValue, s, env, Progress(placed, d1)).nextDraw == d1
    ensures PlaceAll(ws, maxValue, s, env, Progress(placed, d1)).placed ==
            PlaceAll(ws, maxValue, s, env, Progress(placed, d2)).placed
    decreases |ws|
  {
    if ws != [] {
      var fontSize := FontSizeOf(ws[0], maxValue, s);
      var size := WordDimensions(ws[0].text, fontSize);
      RetryOfDeterministicSearch(s.shape, s.width, s.height, size.width, size.height, placed, env, d1, MaxAttempts);
      RetryOfDeterministicSearch(s.shape, s.width, s.height, size.width, size.height, placed, env, d2, MaxAttempts);
      SearchIgnoresDraws(s.shape, s.width, s.height, size.width, size.height, placed, env, d1, d2);
      var next1 := Step(ws[0], maxValue, s, env, Progress(placed, d1));
      var next2 := Step(ws[0], maxValue, s, env, Progress(placed, d2));
      assert next1 == Progress(next2.placed, d1) && next2.nextDraw == d2;
      PlaceAllDeterministic(ws[1..], maxValue, s, env, next2.placed, d1, d2);
    }
  }

  // ---------------------------------------------------------------- properties of a pass

  /** No two words of a layout collide. */
  lemma LayoutNonOverlapping(words: seq<Word>, s: Settings, env: Env, draw: nat)
    requires s.width != 0.0 && s.height != 0.0
    ensures NonOverlapping(LayoutOf(words, s, env, draw).value.placed)
  {
    PlaceAllNonOverlapping(SortByValueDesc(words), MaxValue(words), s, env, Progress([], draw));
  }

  /** The words of a layout are the sorted words less the ones that found no box. */
  lemma LayoutIsSubsequenceOfSorted(words: seq<Word>, s: Settings, env: Env, draw: nat)
    requires s.width != 0.0 && s.height != 0.0
    ensures IsSubsequence(Words(LayoutOf(words, s, env, draw).value.placed), SortByValueDesc(words))
  {
    var sorted := SortByValueDesc(words);
    var m := MaxValue(words);
    var start := Progress([], draw);
    assert LayoutOf(words, s, env, draw) == Some(PlaceAll(sorted, m, s, env, start));
    assert Words(start.placed) == [];
    PlaceAllSubsequence(sorted, m, s, env, start, []);
    assert [] + sorted == sorted;
  }

  /** A layout holds input words, each at most as often as it was given, in the order of the
      descending sort: its values never increase. */
  lemma LayoutFollowsSortedOrder(words: seq<Word>, s: Settings, env: Env, draw: nat)
    requires s.width != 0.0 && s.height != 0.0
    ensures var placed := Words(LayoutOf(words, s, env, draw).value.placed);
            SortedByValueDesc(placed) && multiset(placed) <= multiset(words)
  {
    var placed := Words(LayoutOf(words, s, env, draw).value.placed);
    LayoutIsSubsequenceOfSorted(words, s, env, draw);
    SubsequenceSorted(placed, SortByValueDesc(words));
    SubsequenceMultiset(placed, SortByValueDesc(words));
  }

  /** Words of equal value appear in a layout in their input order. */
  lemma LayoutKeepsTieOrder(words: seq<Word>, s: Settings, env: Env, draw: nat, v: real)
    requires s.width != 0.0 && s.height != 0.0
    ensures IsSubsequence(WithValue(Words(LayoutOf(words, s, env, draw).value.placed), v), WithValue(words, v))
  {
    LayoutIsSubsequenceOfSorted(words, s, env, draw);
    SubsequenceWithValue(Words(LayoutOf(words, s, env, draw).value.placed), SortByValueDesc(words), v);
    SortIsStable(words, v);
  }

  /** Every word of a layout has the font size of its value, within the font-size bounds. */
  lemma LayoutFontSizes(words: seq<Word>, s: Settings, env: Env, draw: nat)
    requires s.width != 0.0 && s.height != 0.0
    ensures var placed := LayoutOf(words, s, env, draw).value.placed;
            forall i :: 0 <= i < |placed| ==>
              FontSized(placed[i], MaxValue(words), s) && s.minFontSize <= placed[i].fontSize &&
              (s.minFontSize <= s.maxFontSize ==> placed[i].fontSize <= s.maxFontSize)
  {
    PlaceAllFontSized(SortByValueDesc(words), MaxValue(words), s, env, Progress([], draw));
  }

  /** Every word of a layout has the box estimated for its font size. */
  lemma LayoutBoxes(words: seq<Word>, s: Settings, env: Env, draw: nat)
    requires ShuffleIsPermutation(env) && s.width != 0.0 && s.height != 0.0
    ensures var placed := LayoutOf(words, s, env, draw).value.placed;
            forall i :: 0 <= i < |placed| ==>
              placed[i].width == WordDimensions(placed[i].text, placed[i].fontSize).width &&
              placed[i].height == WordDimensions(placed[i].text, placed[i].fontSize).height
  {
    PlaceAllLanded(SortByValueDesc(words), MaxValue(words), s, env, Progress([], draw));
  }

  /** Font sizes never grow along a layout while the largest value is positive. */
  lemma LayoutFontSizesDescend(words: seq<Word>, s: Settings, env: Env, draw: nat)
    requires s.width != 0.0 && s.height != 0.0
    requires MaxValue(words) > 0.0 && s.minFontSize <= s.maxFontSize
    ensures var placed := LayoutOf(words, s, env, draw).value.placed;
            forall i, j :: 0 <= i < j < |placed| ==> placed[i].fontSize >= placed[j].fontSize
  {
    var placed := LayoutOf(words, s, env, draw).value.placed;
    LayoutFollowsSortedOrder(words, s, env, draw);
    LayoutFontSizes(words, s, env, draw);
    forall i, j | 0 <= i < j < |placed|
      ensures placed[i].fontSize >= placed[j].fontSize
    {
      assert Words(placed)[i].value >= Words(placed)[j].value;
      FontSizeMonotone(placed[j].value, placed[i].value, MaxValue(words), s.minFontSize, s.maxFontSize);
    }
  }

  /** When every value is 0, every word of a layout gets minFontSize. */
  lemma LayoutOfZeroValues(words: seq<Word>, s: Settings, env: Env, draw: nat)
    requires s.width != 0.0 && s.height != 0.0
    requires forall i :: 0 <= i < |words| ==> words[i].value == 0.0
    ensures var placed := LayoutOf(words, s, env, draw).value.placed;
            forall i :: 0 <= i < |placed| ==> placed[i].fontSize == s.minFontSize
  {
    assert MaxValue(words) == 0.0;
    LayoutFontSizes(words, s, env, draw);
  }

  /** Words placed by the archimedean spiral or the grid lie in the container; words placed by
      the loose search do too when the draws are in [0, 1) and the word fits. */
  lemma LayoutInContainer(words: seq<Word>, s: Settings, env: Env, draw: nat)
    requires ShuffleIsPermutation(env) && s.width != 0.0 && s.height != 0.0
    ensures var placed := LayoutOf(words, s, env, draw).value.placed;
            forall i :: 0 <= i < |placed| ==>
              ((s.shape.Archimedean? || s.shape.Horizontal?) ==> Inside(placed[i].Box(), s.width, s.height)) &&
              ((s.shape.Loose? && DrawsInUnitInterval(env) && placed[i].width <= s.width && placed[i].height <= s.height)
                 ==> Inside(placed[i].Box(), s.width, s.height))
  {
    PlaceAllLanded(SortByValueDesc(words), MaxValue(words), s, env, Progress([], draw));
  }

  /** With a shape no search answers to, the retry loop spends its whole budget and finds nothing. */
  lemma {:induction false} RetryOfUnknownShape(containerWidth: real, containerHeight: real, width: real, height: real,
                                               placed: seq<PlacedWord>, env: Env, draw: nat, budget: nat)
    requires budget >= 1
    ensures Retry(Unknown, containerWidth, containerHeight, width, height, placed, env, draw, budget) ==
            Trial(None, draw, budget)
    decreases budget
  {
    if budget > 1 {
      RetryOfUnknownShape(containerWidth, containerHeight, width, height, placed, env, draw, budget - 1);
    }
  }

  /** With a shape no search answers to, the pass places nothing. */
  lemma {:induction false} PlaceAllUnknownShape(ws: seq<Word>, maxValue: real, s: Settings, env: Env, state: Progress)
    requires s.shape.Unknown?
    ensures PlaceAll(ws, maxValue, s, env, state) == state
    decreases |ws|
  {
    if ws != [] {
      var fontSize := FontSizeOf(ws[0], maxValue, s);
      var size := WordDimensions(ws[0].text, fontSize);
      RetryOfUnknownShape(s.width, s.height, size.width, size.height, state.placed, env, state.nextDraw, MaxAttempts);
      assert Step(ws[0], maxValue, s, env, state) == state;
      PlaceAllUnknownShape(ws[1..], maxValue, s, env, state);
    }
  }

  /** An unrecognised shape gives an empty layout, whatever the words. */
  lemma LayoutOfUnknownShape(words: seq<Word>, s: Settings, env: Env, draw: nat)
    requires s.shape.Unknown? && s.width != 0.0 && s.height != 0.0
    ensures LayoutOf(words, s, env, draw) == Some(Progress([], draw))
  {
    PlaceAllUnknownShape(SortByValueDesc(words), MaxValue(words), s, env, Progress([], draw));
  }

  /** No words give an empty layout. */
  lemma LayoutOfNoWords(s: Settings, env: Env, draw: nat)
    requires s.width != 0.0 && s.height != 0.0
    ensures LayoutOf([], s, env, draw) == Some(Progress([], draw))
  {
  }

  /** With the circular or archimedean spiral (or an unknown shape) a layout uses no draws, and the same input gives
      the same layout whatever the state of the random source. */
  lemma LayoutDeterministic(words: seq<Word>, s: Settings, env: Env, d1: nat, d2: nat)
    requires Deterministic(s.shape) && s.width != 0.0 && s.height != 0.0
    ensures LayoutOf(words, s, env, d1).value.nextDraw == d1
    ensures LayoutOf(words, s, env, d1).value.placed == LayoutOf(words, s, env, d2).value.placed
  {
    PlaceAllDeterministic(SortByValueDesc(words), MaxValue(words), s, env, [], d1, d2);
  }

  /** The first word of the sort has the largest value. */
  lemma SortedHeadIsLargest(words: seq<Word>)
    requires words != []
    ensures SortByValueDesc(words)[0].value == MaxValue(words)
  {
    var sorted := SortByValueDesc(words);
    var m := MaxValue(words);
    var i :| 0 <= i < |words| && words[i].value == m;
    assert words[i] in multiset(sorted);
    var k :| 0 <= k < |sorted| && sorted[k] == words[i];
    assert sorted[0] in multiset(words);
    var j :| 0 <= j < |words| && words[j] == sorted[0];
  }

  /** With the circular spiral, the first word goes to the centre of an empty layout. */
  lemma CircularFirstStep(w: Word, maxValue: real, s: Settings, env: Env, draw: nat)
    requires s.shape.Circular? && s.width > 0.0 && s.height > 0.0
    ensures var fontSize := FontSizeOf(w, maxValue, s);
            var size := WordDimensions(w.text, fontSize);
            Step(w, maxValue, s, env, Progress([], draw)).placed ==
            [Place(w, Position(s.width / 2.0 - size.width / 2.0, s.height / 2.0 - size.height / 2.0,
                               size.width, size.height), fontSize)]
  {
    var fontSize := FontSizeOf(w, maxValue, s);
    var size := WordDimensions(w.text, fontSize);
    CircularStartsAtCentre(s.width / 2.0, s.height / 2.0, size.width, size.height, env);
    assert Search(s.shape, s.width, s.height, size.width, size.height, [], env, draw).position ==
           Some(Position(s.width / 2.0 - size.width / 2.0, s.height / 2.0 - size.height / 2.0, size.width, size.height));
  }

  /** The word of largest value gets maxFontSize when the largest value is not 0. */
  lemma LargestWordGetsLargestFont(words: seq<Word>, s: Settings)
    requires words != [] && MaxValue(words) != 0.0 && s.minFontSize <= s.maxFontSize
    ensures FontSizeOf(SortByValueDesc(words)[0], MaxValue(words), s) == s.maxFontSize
  {
    SortedHeadIsLargest(words);
    FontSizeAtMaxValue(MaxValue(words), s.minFontSize, s.maxFontSize);
  }

  /** With the circular spiral in a container of positive size, the first word of a pass is placed
      first, centred on the container's centre. */
  lemma PlaceAllFirstCentred(ws: seq<Word>, m: real, s: Settings, env: Env, draw: nat)
    requires s.shape.Circular? && s.width > 0.0 && s.height > 0.0 && ws != []
    ensures var placed := PlaceAll(ws, m, s, env, Progress([], draw)).placed;
            var fontSize := FontSizeOf(ws[0], m, s);
            var size := WordDimensions(ws[0].text, fontSize);
            |placed| >= 1 &&
            placed[0] == Place(ws[0], Position(s.width / 2.0 - size.width / 2.0, s.height / 2.0 - size.height / 2.0,
                                               size.width, size.height), fontSize)
  {
    var first := Step(ws[0], m, s, env, Progress([], draw));
    CircularFirstStep(ws[0], m, s, env, draw);
    PlaceAllExtends(ws[1..], m, s, env, first);
    var r := PlaceAll(ws[1..], m, s, env, first).placed;
    assert r[0] == r[..1][0] == first.placed[0];
  }

  /** With the circular spiral in a container of positive size, the word of largest value is
      placed first, centred on the container's centre. */
  lemma LargestWordCentred(words: seq<Word>, s: Settings, env: Env, draw: nat)
    requires s.shape.Circular? && s.width > 0.0 && s.height > 0.0 && words != []
    ensures var placed := LayoutOf(words, s, env, draw).value.placed;
            var w := SortByValueDesc(words)[0];
            var fontSize := FontSizeOf(w, MaxValue(words), s);
            var size := WordDimensions(w.text, fontSize);
            w.value == MaxValue(words) && |placed| >= 1 &&
            placed[0] == Place(w, Position(s.width / 2.0 - size.width / 2.0, s.height / 2.0 - size.height / 2.0,
                                           size.width, size.height), fontSize)
  {
    SortedHeadIsLargest(words);
    PlaceAllFirstCentred(SortByValueDesc(words), MaxValue(words), s, env, draw);
  }
}
