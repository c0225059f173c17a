/** The blind-test game: eligible playlists, the shuffle, question building, scoring, the per-second
    timer and the advance to the next question. */
module BlindTest {
  import opened Wrappers
  import opened Seqs
  import opened Schemas

  const QuestionsPerGame: nat := 10
  const TimePerQuestion: nat := 30
  const MinTracks: nat := 4
  const MinPlaylistTracks: int := 10
  const WrongChoices: nat := 3

  function Min(a: nat, b: nat): nat
  {
    if a <= b then a else b
  }

  /** The loader: the playlists with at least ten tracks, in their order. */
  function EligiblePlaylists(playlists: seq<Playlist>): (r: seq<Playlist>)
    ensures forall p :: p in r <==> p in playlists && p.total >= MinPlaylistTracks
    ensures IsSubsequence(r, playlists)
  {
    var p := (pl: Playlist) => pl.total >= MinPlaylistTracks;
    FilterMembers(playlists, p);
    FilterIsSubsequence(playlists, p);
    Filter(playlists, p)
  }

  /** A value of `Math.random()`. */
  type Unit = r: real | 0.0 <= r < 1.0

  /** `Math.floor(Math.random() * n)` is an index below `n`. */
  lemma ScaledFloor(x: Unit, n: nat)
    requires n > 0
    ensures 0 <= (x * n as real).Floor < n
  {
    assert 0.0 <= x * n as real;
    assert x * n as real < n as real by {
      assert (1.0 - x) * n as real > 0.0;
    }
  }

  /** `Math.floor(Math.random() * n)`. */
  function RandomIndex(x: Unit, n: nat): (j: nat)
    requires n > 0
    ensures j < n
  {
    ScaledFloor(x, n);
    (x * n as real).Floor
  }

  /** Swapping two elements keeps the elements. */
  lemma SwapMultiset<T>(s: seq<T>, i: nat, j: nat)
    requires i < |s| && j < |s|
    ensures multiset(s[i := s[j]][j := s[i]]) == multiset(s)
  {
  }

  /** `shuffleArray`: a Fisher–Yates shuffle of a copy of `s`. `Math.random` is the sequence
      `rnd(draw), rnd(draw + 1), ...`; `next` is the first draw not used. */
  method Shuffle<T>(s: seq<T>, rnd: nat -> Unit, draw: nat) returns (r: seq<T>, next: nat)
    ensures |r| == |s| && multiset(r) == multiset(s)
    ensures next == draw + (if |s| == 0 then 0 else |s| - 1)
  {
    if |s| == 0 {
      return [], draw;
    }
    var a := new T[|s|](k requires 0 <= k < |s| => s[k]);
    assert a[..] == s;
    var i := |s| - 1;
    next := draw;
    while i > 0
      invariant 0 <= i < |s| && a.Length == |s|
      invariant multiset(a[..]) == multiset(s)
      invariant next == draw + (|s| - 1 - i)
    {
      var j := RandomIndex(rnd(next), i + 1);
      next := next + 1;
      ghost var before := a[..];
      a[i], a[j] := a[j], a[i];
      SwapMultiset(before, i, j);
      assert a[..] == before[i := before[j]][j := before[i]];
      i := i - 1;
    }
    r := a[..];
  }

  /** A question: the track that plays and the tracks offered. */
  datatype Question = Question(correct: Track, choices: seq<Track>)

  /** The tracks of `pool` whose id differs from that of `t`. */
  function Others(pool: seq<Track>, t: Track): (r: seq<Track>)
    ensures |r| <= |pool|
    ensures t in pool ==> |r| < |pool|
  {
    var p := (u: Track) => u.id != t.id;
    if t in pool then FilterShorter(pool, p, t); Filter(pool, p)
    else Filter(pool, p)
  }

  /** The wrong-answer pool holds exactly the tracks of the pool with another id. */
  lemma OthersMembers(pool: seq<Track>, t: Track)
    ensures forall u :: u in Others(pool, t) <==> u in pool && u.id != t.id
  {
    FilterMembers(pool, (u: Track) => u.id != t.id);
  }

  /** What every question built from `pool` satisfies: the correct track is offered exactly once,
      every other choice is a track of the pool with a different id, and there are at most three. */
  ghost predicate QuestionFrom(q: Question, pool: seq<Track>)
  {
    && multiset(q.choices)[q.correct] == 1
    && |q.choices| == 1 + Min(WrongChoices, |Others(pool, q.correct)|)
    && (forall k :: 0 <= k < |q.choices| ==> q.choices[k] in pool)
    && (forall k :: 0 <= k < |q.choices| && q.choices[k] != q.correct ==> q.choices[k].id != q.correct.id)
  }

  /** One iteration of the question loop of `startGame`. */
  method MakeQuestion(pool: seq<Track>, correct: Track, rnd: nat -> Unit, draw: nat)
    returns (q: Question, next: nat)
    requires correct in pool
    ensures q.correct == correct && QuestionFrom(q, pool)
    ensures next >= draw
  {
    var others := Others(pool, correct);
    OthersMembers(pool, correct);
    var mixed, d := Shuffle(others, rnd, draw);
    var wrong := mixed[..Min(WrongChoices, |mixed|)];
    assert forall u :: u in wrong ==> u in pool && u.id != correct.id by {
      forall u | u in wrong ensures u in pool && u.id != correct.id {
        assert u in multiset(mixed);
      }
    }
    assert multiset(wrong)[correct] == 0;
    var choices;
    choices, next := Shuffle([correct] + wrong, rnd, d);
    assert multiset(choices)[correct] == 1 by {
      assert multiset([correct] + wrong) == multiset{correct} + multiset(wrong);
    }
    forall k | 0 <= k < |choices| ensures choices[k] in pool && (choices[k] != correct ==> choices[k].id != correct.id) {
      assert choices[k] in multiset([correct] + wrong);
    }
    q := Question(correct, choices);
  }

  /** The question loop of `startGame`: question `i` plays `shuffled[i]`, for the first ten tracks
      at most. */
  method BuildQuestions(shuffled: seq<Track>, rnd: nat -> Unit, draw: nat)
    returns (questions: seq<Question>, next: nat)
    ensures |questions| == Min(QuestionsPerGame, |shuffled|)
    ensures forall i :: 0 <= i < |questions| ==> questions[i].correct == shuffled[i] && QuestionFrom(questions[i], shuffled)
    ensures next >= draw
  {
    questions := [];
    next := draw;
    var count := Min(QuestionsPerGame, |shuffled|);
    var i := 0;
    while i < count
      invariant 0 <= i <= count && |questions| == i && next >= draw
      invariant forall k :: 0 <= k < i ==> questions[k].correct == shuffled[k]
      invariant forall k :: 0 <= k < i ==> QuestionFrom(questions[k], shuffled)
    {
      var q;
      q, next := MakeQuestion(shuffled, shuffled[i], rnd, next);
      questions := questions + [q];
      assert questions[i] == q;
      i := i + 1;
    }
  }

  /** The question building of `startGame`: the tracks are shuffled, then the questions are built
      from the shuffled list. */
  method Deal(tracks: seq<Track>, rnd: nat -> Unit, draw: nat)
    returns (shuffled: seq<Track>, questions: seq<Question>, next: nat)
    ensures |shuffled| == |tracks| && multiset(shuffled) == multiset(tracks)
    ensures |questions| == Min(QuestionsPerGame, |tracks|)
    ensures forall i :: 0 <= i < |questions| ==> questions[i].correct == shuffled[i] && QuestionFrom(questions[i], shuffled)
    ensures next >= draw
  {
    var d;
    shuffled, d := Shuffle(tracks, rnd, draw);
    questions, next := BuildQuestions(shuffled, rnd, d);
  }

  /** The points of a correct answer with `timeLeft` seconds left. */
  function Points(timeLeft: nat): (p: nat)
    ensures timeLeft <= TimePerQuestion ==> p <= MaxPoints
  {
    3 + timeLeft / 3
  }

  const MaxPoints: nat := 13

  /** `selectedTrack?.id === correctTrack.id`: a timeout (None) never matches. */
  predicate IsCorrect(selected: Option<Track>, q: Question)
    ensures IsCorrect(selected, q) ==> selected.Some?
    ensures selected == Some(q.correct) ==> IsCorrect(selected, q)
  {
    selected.Some? && selected.value.id == q.correct.id
  }

  function TrackUri(id: string): string
  {
    "spotify:track:" + id
  }

  datatype GameState = Setup | Playing | Results
  datatype PlayedTrack = PlayedTrack(track: Track, wasCorrect: bool)

  /** What the page asks of the player session. */
  datatype PlayerCommand = Activate | PlayUri(uri: string) | Pause

  /** The 1.5 s advance timeout of an answer, with the index and questions it captured. */
  datatype Advance = Advance(index: nat, questions: seq<Question>)

  /** The page's state cells. `pending` holds the advance timeouts not yet fired, oldest first. */
  class Game {
    const rnd: nat -> Unit
    var draws: nat
    var state: GameState
    var selected: Option<Playlist>
    var questions: seq<Question>
    var index: nat
    var score: nat
    var timeLeft: nat
    var played: seq<PlayedTrack>
    var answered: bool
    var selectedAnswer: Option<Track>
    var pending: seq<Advance>

    ghost predicate Valid()
      reads this
    {
      timeLeft <= TimePerQuestion && score <= MaxPoints * |played|
    }

    constructor (rnd: nat -> Unit)
      ensures Valid() && this.rnd == rnd && draws == 0
      ensures state == Setup && selected == None && questions == [] && index == 0 && score == 0
      ensures timeLeft == TimePerQuestion && played == [] && !answered && selectedAnswer == None && pending == []
    {
      this.rnd := rnd;
      draws := 0;
      state, selected, questions, index, score := Setup, None, [], 0, 0;
      timeLeft, played, answered, selectedAnswer, pending := TimePerQuestion, [], false, None, [];
    }

    method SelectPlaylist(p: Playlist)
      requires Valid()
      modifies this
      ensures Valid() && selected == Some(p)
      ensures state == old(state) && questions == old(questions) && index == old(index) && score == old(score)
      ensures timeLeft == old(timeLeft) && played == old(played) && answered == old(answered) && pending == old(pending)
      ensures selectedAnswer == old(selectedAnswer) && draws == old(draws)
    {
      selected := Some(p);
    }

    /** `startGame`: needs a selected playlist and a ready player; activates the player, then needs
        the playlist's tracks (None when fetching them threw) and at least four of them. */
    method StartGame(isReady: bool, tracks: Option<seq<Track>>)
      returns (commands: seq<PlayerCommand>, shuffled: seq<Track>)
      requires Valid()
      modifies this
      ensures Valid()
      ensures selected == old(selected) && selectedAnswer == old(selectedAnswer) && pending == old(pending)
      ensures old(selected).None? || !isReady ==> commands == []
      ensures var started := old(selected).Some? && isReady && tracks.Some? && |tracks.value| >= MinTracks;
        && (!started ==>
              && commands == (if old(selected).Some? && isReady then [Activate] else [])
              && state == old(state) && questions == old(questions) && index == old(index) && score == old(score)
              && timeLeft == old(timeLeft) && played == old(played) && answered == old(answered)
              && draws == old(draws))
        && (started ==>
              && draws >= old(draws)
              && |shuffled| == |tracks.value| && multiset(shuffled) == multiset(tracks.value)
              && |questions| == Min(QuestionsPerGame, |tracks.value|)
              && (forall i :: 0 <= i < |questions| ==> questions[i].correct == shuffled[i] && QuestionFrom(questions[i], shuffled))
              && state == Playing && index == 0 && score == 0 && timeLeft == TimePerQuestion
              && played == [] && !answered
              && commands == [Activate, PlayUri(TrackUri(questions[0].correct.id))])
    {
      shuffled := [];
      if selected.None? || !isReady {
        return [], shuffled;
      }
      commands := [Activate];
      if tracks.None? || |tracks.value| < MinTracks {
        return commands, shuffled;
      }
      var built, next;
      shuffled, built, next := Deal(tracks.value, rnd, draws);
      Begin(built, next);
      commands := [Activate, PlayUri(TrackUri(built[0].correct.id))];
    }

    /** The state `startGame` sets once the questions are built. */
    method Begin(built: seq<Question>, next: nat)
      requires Valid()
      modifies this
      ensures Valid()
      ensures questions == built && draws == next && state == Playing && index == 0 && score == 0
      ensures timeLeft == TimePerQuestion && played == [] && !answered
      ensures selected == old(selected) && selectedAnswer == old(selectedAnswer) && pending == old(pending)
    {
      draws := next;
      questions := built;
      index := 0;
      score := 0;
      timeLeft := TimePerQuestion;
      played := [];
      answered := false;
      state := Playing;
    }

    /** `processAnswer`: marks the question answered and pauses; when there is a current question,
        scores the answer, records the played track and starts the advance timeout. */
    method ProcessAnswer(answer: Option<Track>) returns (commands: seq<PlayerCommand>)
      requires Valid()
      modifies this
      ensures Valid() && answered && commands == [Pause]
      ensures state == old(state) && questions == old(questions) && index == old(index) && timeLeft == old(timeLeft)
      ensures selected == old(selected) && selectedAnswer == old(selectedAnswer) && draws == old(draws)
      ensures old(index) >= |old(questions)| ==> score == old(score) && played == old(played) && pending == old(pending)
      ensures old(index) < |old(questions)| ==>
                var q := old(questions)[old(index)];
                && score == old(score) + (if IsCorrect(answer, q) then Points(old(timeLeft)) else 0)
                && played == old(played) + [PlayedTrack(q.correct, IsCorrect(answer, q))]
                && pending == old(pending) + [Advance(old(index), old(questions))]
    {
      answered := true;
      commands := [Pause];
      if index >= |questions| {
        return;
      }
      var q := questions[index];
      var isCorrect := IsCorrect(answer, q);
      if isCorrect {
        score := score + Points(timeLeft);
      }
      played := played + [PlayedTrack(q.correct, isCorrect)];
      pending := pending + [Advance(index, questions)];
    }

    /** `handleAnswer`: ignored once the question is answered. */
    method HandleAnswer(t: Track) returns (commands: seq<PlayerCommand>)
      requires Valid()
      modifies this
      ensures Valid()
      ensures old(answered) ==>
                commands == [] && score == old(score) && played == old(played) && pending == old(pending)
                && selectedAnswer == old(selectedAnswer) && answered == old(answered)
      ensures !old(answered) ==> answered && selectedAnswer == Some(t) && commands == [Pause]
      ensures !old(answered) && old(index) < |old(questions)| ==>
                var q := old(questions)[old(index)];
                && score == old(score) + (if t.id == q.correct.id then Points(old(timeLeft)) else 0)
                && played == old(played) + [PlayedTrack(q.correct, t.id == q.correct.id)]
                && pending == old(pending) + [Advance(old(index), old(questions))]
      ensures !old(answered) && old(index) >= |old(questions)| ==>
                score == old(score) && played == old(played) && pending == old(pending)
      ensures state == old(state) && questions == old(questions) && index == old(index) && timeLeft == old(timeLeft)
      ensures selected == old(selected) && draws == old(draws)
    {
      if answered {
        return [];
      }
      selectedAnswer := Some(t);
      commands := ProcessAnswer(Some(t));
    }

    /** One second of the interval timer, which runs only while playing an unanswered question:
        counts down, and at one second or less sets zero and submits a timeout. */
    method Tick() returns (commands: seq<PlayerCommand>)
      requires Valid()
      modifies this
      ensures Valid()
      ensures state == old(state) && questions == old(questions) && index == old(index)
      ensures selected == old(selected) && selectedAnswer == old(selectedAnswer) && draws == old(draws)
      ensures old(state) != Playing || old(answered) ==>
                commands == [] && timeLeft == old(timeLeft) && answered == old(answered)
                && score == old(score) && played == old(played) && pending == old(pending)
      ensures old(state) == Playing && !old(answered) && old(timeLeft) > 1 ==>
                commands == [] && timeLeft == old(timeLeft) - 1 && !answered
                && score == old(score) && played == old(played) && pending == old(pending)
      ensures old(state) == Playing && !old(answered) && old(timeLeft) <= 1 ==>
                timeLeft == 0 && answered && commands == [Pause] && score == old(score)
                && (old(index) < |old(questions)| ==>
                      && played == old(played) + [PlayedTrack(old(questions)[old(index)].correct, false)]
                      && pending == old(pending) + [Advance(old(index), old(questions))])
                && (old(index) >= |old(questions)| ==> played == old(played) && pending == old(pending))
    {
      if state != Playing || answered {
        return [];
      }
      if timeLeft <= 1 {
        timeLeft := 0;
        commands := ProcessAnswer(None);
      } else {
        timeLeft := timeLeft - 1;
        commands := [];
      }
    }

    /** The oldest advance timeout fires: the next question of the captured list, with a fresh
        timer and its track started, or the results after the last one. */
    method FireAdvance() returns (commands: seq<PlayerCommand>)
      requires Valid()
      modifies this
      ensures Valid()
      ensures questions == old(questions) && score == old(score) && played == old(played)
      ensures selected == old(selected) && draws == old(draws)
      ensures old(pending) == [] ==>
                commands == [] && state == old(state) && index == old(index) && pending == []
                && timeLeft == old(timeLeft) && answered == old(answered) && selectedAnswer == old(selectedAnswer)
      ensures old(pending) != [] ==>
                var a := old(pending)[0];
                && pending == old(pending)[1..]
                && (a.index + 1 < |a.questions| ==>
                      && index == old(index) + 1 && timeLeft == TimePerQuestion && !answered
                      && selectedAnswer == None && state == old(state)
                      && commands == [PlayUri(TrackUri(a.questions[a.index + 1].correct.id))])
                && (a.index + 1 >= |a.questions| ==>
                      && state == Results && commands == [Pause] && index == old(index) && timeLeft == old(timeLeft)
                      && answered == old(answered) && selectedAnswer == old(selectedAnswer))
    {
      if pending == [] {
        return [];
      }
      var a := pending[0];
      pending := pending[1..];
      if a.index + 1 < |a.questions| {
        index := index + 1;
        timeLeft := TimePerQuestion;
        answered := false;
        selectedAnswer := None;
        commands := [PlayUri(TrackUri(a.questions[a.index + 1].correct.id))];
      } else {
        commands := [Pause];
        state := Results;
      }
    }

    /** `resetGame`: back to the setup screen; the timer and the answered flag are left as they are. */
    method ResetGame() returns (commands: seq<PlayerCommand>)
      requires Valid()
      modifies this
      ensures Valid() && commands == [Pause]
      ensures state == Setup && selected == None && questions == [] && index == 0 && score == 0 && played == []
      ensures timeLeft == old(timeLeft) && answered == old(answered) && pending == old(pending)
      ensures selectedAnswer == old(selectedAnswer) && draws == old(draws)
    {
      commands := [Pause];
      state := Setup;
      selected := None;
      questions := [];
      index := 0;
      score := 0;
      played := [];
    }
  }
}
