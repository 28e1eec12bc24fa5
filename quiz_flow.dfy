/** components/QuizFlow.tsx: the five-question preferences quiz. Each
    handler replaces the `step` or `preferences` state; completing the
    quiz hands the preferences to the caller, recorded here in order. */
module QuizFlow {
  import opened Seqs
  import Db
  import opened ClaudeAi

  /** The genres offered on the first question. */
  const Genres: seq<string> := [
    "Fiction", "Non-Fiction", "Mystery", "Thriller", "Romance", "Science Fiction",
    "Fantasy", "Biography", "History", "Self-Help", "Literary Fiction", "Horror"]

  /** The answers before any question is touched. */
  const InitialPreferences: QuizPreferences := QuizPreferences([], 50, 50, Db.Medium, ClaudeAi.Medium, 50)

  const LastStep: int := 5

  /** `handleGenreToggle` on the list: a chosen genre is removed (every
      copy of it), any other is appended. */
  function Toggle(genres: seq<string>, genre: string): (r: seq<string>)
    ensures genre !in genres ==> r == genres + [genre]
    ensures genre in genres ==> genre !in r && IsSubsequence(r, genres)
    ensures genre in genres ==> forall x :: x in genres && x != genre ==> x in r
  {
    if genre in genres then
      FilterIsSubsequence(genres, (g: string) => g != genre);
      Filter(genres, (g: string) => g != genre)
    else genres + [genre]
  }

  /** Filtering out what is not there changes nothing. */
  lemma {:induction false} FilterAbsent(xs: seq<string>, genre: string)
    requires genre !in xs
    ensures Filter(xs, (g: string) => g != genre) == xs
  {
    if xs != [] {
      FilterAbsent(xs[1..], genre);
    }
  }

  /** Choosing a genre and then unchoosing it gives the list back. */
  lemma ToggleTwice(genres: seq<string>, genre: string)
    requires genre !in genres
    ensures Toggle(Toggle(genres, genre), genre) == genres
  {
    FilterAppend(genres, genre, (g: string) => g != genre);
    FilterAbsent(genres, genre);
  }

  class Quiz {
    var step: int
    var preferences: QuizPreferences
    /** The preferences handed to `onComplete`, one per completion. */
    var completed: seq<QuizPreferences>

    /** The step is one of the five questions; a later question is only
        reached with a genre chosen, so every completed quiz has one. */
    ghost predicate Valid()
      reads this
    {
      && 1 <= step <= LastStep
      && (step > 1 ==> |preferences.genres| > 0)
      && (forall i :: 0 <= i < |completed| ==> |completed[i].genres| > 0)
    }

    constructor ()
      ensures step == 1 && preferences == InitialPreferences && completed == []
      ensures Valid()
    {
      step := 1;
      preferences := InitialPreferences;
      completed := [];
    }

    /** `canProceed`: the first question needs a genre; the others do not. */
    function CanProceed(): (r: bool)
      reads this
      ensures r <==> step != 1 || |preferences.genres| > 0
    {
      if step == 1 then |preferences.genres| > 0 else true
    }

    /** `handleGenreToggle`. */
    method HandleGenreToggle(genre: string)
      modifies this
      ensures preferences == old(preferences).(genres := Toggle(old(preferences).genres, genre))
      ensures step == old(step) && completed == old(completed)
    {
      var current := preferences.genres;
      var updated := if genre in current then Filter(current, (g: string) => g != genre) else current + [genre];
      preferences := preferences.(genres := updated);
    }

    /** `handleNext`: the next question, or, on the last one, completion
        with the step left where it is. */
    method HandleNext()
      modifies this
      ensures old(step) < LastStep ==> step == old(step) + 1 && completed == old(completed)
      ensures old(step) >= LastStep ==> step == old(step) && completed == old(completed) + [old(preferences)]
      ensures preferences == old(preferences)
    {
      if step < LastStep {
        step := step + 1;
      } else {
        completed := completed + [preferences];
      }
    }

    /** `handleBack`: the previous question, never before the first. */
    method HandleBack()
      modifies this
      ensures step == if old(step) > 1 then old(step) - 1 else old(step)
      ensures preferences == old(preferences) && completed == old(completed)
    {
      if step > 1 {
        step := step - 1;
      }
    }

    /** A slider or radio choice: one answer replaced, as the
        `onValueChange` handlers of questions 2 to 5 do. */
    method SetAnswer(happySad: int, hopefulBleak: int, pacing: Db.Pacing, length: Length, focus: int)
      modifies this
      ensures preferences == QuizPreferences(old(preferences).genres, happySad, hopefulBleak, pacing, length, focus)
      ensures step == old(step) && completed == old(completed)
    {
      preferences := preferences.(moodHappySad := happySad, moodHopefulBleak := hopefulBleak,
                                  pacing := pacing, length := length, focus := focus);
    }

    /** A genre checkbox click: the boxes are shown on the first question only. */
    method ClickGenre(genre: string)
      requires Valid()
      modifies this
      ensures Valid()
      ensures old(step) == 1 ==> preferences.genres == Toggle(old(preferences).genres, genre)
      ensures old(step) != 1 ==> preferences == old(preferences)
      ensures step == old(step) && completed == old(completed)
    {
      if step == 1 {
        HandleGenreToggle(genre);
      }
    }

    /** A Next click: the button is disabled while loading or while the
        question cannot be passed. */
    method ClickNext(loading: bool)
      requires Valid()
      modifies this
      ensures Valid()
      ensures loading || !old(CanProceed()) ==> step == old(step) && completed == old(completed)
      ensures !loading && old(CanProceed()) && old(step) < LastStep ==> step == old(step) + 1
      ensures !loading && old(CanProceed()) && old(step) == LastStep ==> completed == old(completed) + [old(preferences)]
      ensures preferences == old(preferences)
    {
      if !loading && CanProceed() {
        HandleNext();
      }
    }

    /** A Back click: the button is disabled on the first question and
        while loading. */
    method ClickBack(loading: bool)
      requires Valid()
      modifies this
      ensures Valid()
      ensures step == if !loading && old(step) > 1 then old(step) - 1 else old(step)
      ensures preferences == old(preferences) && completed == old(completed)
    {
      if !loading && step != 1 {
        HandleBack();
      }
    }

    /** A slider or radio change, shown on questions 2 to 5. */
    method ClickAnswer(happySad: int, hopefulBleak: int, pacing: Db.Pacing, length: Length, focus: int)
      requires Valid()
      modifies this
      ensures Valid()
      ensures preferences == QuizPreferences(old(preferences).genres, happySad, hopefulBleak, pacing, length, focus)
      ensures step == old(step) && completed == old(completed)
    {
      SetAnswer(happySad, hopefulBleak, pacing, length, focus);
    }
  }
}
