/**
 * The `JokeBoard` component: its state (`loading`, the `jokes` array and the
 * `seenJokes` set), the browser store it saves to, and its operations as
 * sequential steps: construction, mounting, fetching a batch, voting and the
 * in-place sort done when the board is rendered.
 */
module JokeList {
  import opened Wrappers
  import opened JokeView
  import opened JokeListSpec

  /** The browser's local storage entry under the key "jokes": absent, or a saved list. */
  class Storage {
    var item: Option<seq<Joke>>

    constructor (item: Option<seq<Joke>>)
      ensures this.item == item
    {
      this.item := item;
    }

    /** `setItem("jokes", ...)`: the entry now holds `js`. */
    method Save(js: seq<Joke>)
      modifies this
      ensures item == Some(js)
    {
      item := Some(js);
    }
  }

  /** What `render` shows: the spinner while loading, otherwise the jokes in display order. */
  datatype View = Spinner | Board(shown: seq<Joke>)

  class JokeBoard {
    var loading: bool
    var jokes: array<Joke>
    var seenJokes: set<string>
    const storage: Storage

    /**
     * The initial state: the stored list, or the empty list when nothing is
     * stored; not loading; `seenJokes` is exactly the set of initial texts.
     */
    constructor (storage: Storage)
      ensures this.storage == storage && fresh(jokes)
      ensures jokes[..] == storage.item.GetOr([])
      ensures seenJokes == TextSet(jokes[..])
      ensures !loading
    {
      var initial := storage.item.GetOr([]);
      this.storage := storage;
      loading := false;
      jokes := new Joke[|initial|](i requires 0 <= i < |initial| => initial[i]);
      new;
      assert jokes[..] == initial;
      seenJokes := TextSet(initial);
    }

    /**
     * `getJokes`: ten requests, one after the other. A text not in `seenJokes`
     * becomes a new joke with the next fresh id and score 0 in the pending
     * batch; a seen text is dropped. If every request answers, the batch is
     * appended to the jokes in one step and loading ends; the board then
     * re-renders, which sorts the list in place, and only after that does the
     * state-update callback save it. If a request throws, nothing changes:
     * the batch is lost and `loading` keeps whatever value it had.
     * `seenJokes` is never changed.
     */
    method GetJokes(responses: seq<Response>, ids: seq<Id>)
      requires |responses| >= Attempts && |ids| >= Attempts
      modifies this, storage
      ensures seenJokes == old(seenJokes)
      ensures jokes.Length <= old(jokes.Length) + Attempts
      ensures !Fails(responses[..Attempts]) ==>
        && fresh(jokes)
        && SortedByScore(jokes[..], old(jokes[..]) + Batch(seenJokes, responses[..Attempts], ids))
        && !loading
        && storage.item == Some(jokes[..])
      ensures Fails(responses[..Attempts]) ==>
        && jokes == old(jokes)
        && jokes[..] == old(jokes[..])
        && loading == old(loading)
        && storage.item == old(storage.item)
    {
      var newJokes: seq<Joke> := [];
      for index := 0 to Attempts
        invariant !Fails(responses[..index])
        invariant newJokes == Batch(seenJokes, responses[..index], ids)
      {
        assert responses[..index + 1] == responses[..index] + [responses[index]];
        assert responses[..index + 1][..index] == responses[..index];
        match responses[index]
        case Error =>
          assert Error in responses[..Attempts];
          return;
        case Text(newJoke) =>
          if newJoke !in seenJokes {
            newJokes := newJokes + [Joke(ids[|newJokes|], newJoke, 0)];
          }
      }
      var all := jokes[..] + newJokes;
      loading := false;
      jokes := new Joke[|all|](i requires 0 <= i < |all| => all[i]);
      assert jokes[..] == all;
      var _ := Render();
      storage.Save(jokes[..]);
    }

    /**
     * `componentDidMount`: fetches a batch exactly when the board starts out
     * empty; otherwise nothing changes.
     */
    method ComponentDidMount(responses: seq<Response>, ids: seq<Id>) returns (fetched: bool)
      requires |responses| >= Attempts && |ids| >= Attempts
      modifies this, storage
      ensures fetched <==> old(jokes.Length) == 0
      ensures seenJokes == old(seenJokes)
      ensures !fetched ==>
        jokes == old(jokes) && loading == old(loading) && storage.item == old(storage.item)
      ensures fetched && !Fails(responses[..Attempts]) ==>
        && jokes[..] == Batch(seenJokes, responses[..Attempts], ids)
        && !loading
        && storage.item == Some(jokes[..])
      ensures fetched && Fails(responses[..Attempts]) ==>
        jokes == old(jokes) && loading == old(loading) && storage.item == old(storage.item)
    {
      fetched := jokes.Length == 0;
      if fetched {
        ghost var before := jokes[..];
        GetJokes(responses, ids);
        if !Fails(responses[..Attempts]) {
          // every new joke starts at score 0, so the stable sort keeps the batch's order
          assert before + Batch(seenJokes, responses[..Attempts], ids)
            == Batch(seenJokes, responses[..Attempts], ids);
          EqualScoresStay(jokes[..], Batch(seenJokes, responses[..Attempts], ids), 0);
        }
      }
    }

    /**
     * `handleClick` of the "Fetch Jokes" button: loading starts, then a batch
     * is fetched. When a request throws, loading never ends.
     */
    method HandleClick(responses: seq<Response>, ids: seq<Id>)
      requires |responses| >= Attempts && |ids| >= Attempts
      modifies this, storage
      ensures seenJokes == old(seenJokes)
      ensures !Fails(responses[..Attempts]) ==>
        && SortedByScore(jokes[..], old(jokes[..]) + Batch(seenJokes, responses[..Attempts], ids))
        && !loading
        && storage.item == Some(jokes[..])
      ensures Fails(responses[..Attempts]) ==>
        && jokes == old(jokes)
        && loading
        && storage.item == old(storage.item)
    {
      loading := true;
      GetJokes(responses, ids);
    }

    /**
     * `updateScore(vote, id)`: the list is replaced by `UpdateScores` of it;
     * the board re-renders, which sorts the list in place unless it is
     * loading, and then the callback saves it. The batch-related state is
     * untouched.
     */
    method UpdateScore(vote: string, id: Id)
      modifies this, storage
      ensures fresh(jokes)
      ensures old(loading) ==> jokes[..] == UpdateScores(old(jokes[..]), vote, id)
      ensures !old(loading) ==> SortedByScore(jokes[..], UpdateScores(old(jokes[..]), vote, id))
      ensures VoteStep(old(jokes[..]), jokes[..], VoteCall(vote, id))
      ensures loading == old(loading) && seenJokes == old(seenJokes)
      ensures storage.item == Some(jokes[..])
    {
      var updated := UpdateScores(jokes[..], vote, id);
      jokes := new Joke[|updated|](i requires 0 <= i < |updated| => updated[i]);
      assert jokes[..] == updated;
      var _ := Render();
      storage.Save(jokes[..]);
    }

    /**
     * `render`: while loading only the spinner is shown and nothing changes;
     * otherwise the jokes array is sorted in place by descending score and
     * shown in that order. The store is not written.
     */
    method Render() returns (v: View)
      modifies jokes
      ensures loading ==> v == Spinner && jokes[..] == old(jokes[..])
      ensures !loading ==> v == Board(jokes[..]) && SortedByScore(jokes[..], old(jokes[..]))
    {
      if loading {
        v := Spinner;
      } else {
        SortByScore(jokes);
        v := Board(jokes[..]);
      }
    }
  }

  /**
   * Reloading the page after a vote: a board built from the store holds
   * exactly the list the vote left, as sorted by the re-render (which sorts
   * only when not loading), and has seen all of its texts.
   */
  method ReloadAfterVote(board: JokeBoard, vote: string, id: Id) returns (reloaded: JokeBoard)
    modifies board, board.storage
    ensures fresh(reloaded) && reloaded.storage == board.storage
    ensures reloaded.jokes[..] == board.jokes[..]
    ensures !old(board.loading) ==>
      SortedByScore(board.jokes[..], UpdateScores(old(board.jokes[..]), vote, id))
    ensures old(board.loading) ==> board.jokes[..] == UpdateScores(old(board.jokes[..]), vote, id)
    ensures reloaded.seenJokes == TextSet(board.jokes[..])
  {
    board.UpdateScore(vote, id);
    reloaded := new JokeBoard(board.storage);
  }

  /**
   * Exchanges two neighbours of different score: the array's multiset and,
   * for every score, the order of the jokes with that score are unchanged.
   */
  method SwapAdjacent(a: array<Joke>, j: int)
    requires 0 < j < a.Length && a[j - 1].score != a[j].score
    modifies a
    ensures a[j - 1] == old(a[j]) && a[j] == old(a[j - 1])
    ensures forall m :: 0 <= m < a.Length && m != j - 1 && m != j ==> a[m] == old(a[m])
    ensures multiset(a[..]) == multiset(old(a[..]))
    ensures forall v :: WithScore(a[..], v) == WithScore(old(a[..]), v)
  {
    ghost var before := a[..];
    a[j - 1], a[j] := a[j], a[j - 1];
    assert a[..] == before[j - 1 := before[j]][j := before[j - 1]];
    forall v ensures WithScore(a[..], v) == WithScore(before, v) {
      SwapKeepsWithScore(before, j, v);
    }
  }

  /**
   * `jokes.sort((a, b) => b.score - a.score)`: sorts the array in place so
   * that scores never increase, by insertion with adjacent swaps that move a
   * joke only past strictly lower scores, so jokes of equal score keep
   * their order: the sort is stable.
   */
  method SortByScore(a: array<Joke>)
    modifies a
    ensures SortedByScore(a[..], old(a[..]))
  {
    for i := 0 to a.Length
      invariant forall k, l :: 0 <= k < l < i ==> a[k].score >= a[l].score
      invariant multiset(a[..]) == multiset(old(a[..]))
      invariant forall v :: WithScore(a[..], v) == WithScore(old(a[..]), v)
    {
      Insert(a, i);
    }
  }

  /**
   * One insertion step: the joke at `i` moves left past every strictly lower
   * score, so the first `i + 1` jokes become non-increasing.
   */
  method Insert(a: array<Joke>, i: int)
    requires 0 <= i < a.Length
    requires forall k, l :: 0 <= k < l < i ==> a[k].score >= a[l].score
    modifies a
    ensures forall k, l :: 0 <= k < l <= i ==> a[k].score >= a[l].score
    ensures multiset(a[..]) == multiset(old(a[..]))
    ensures forall v :: WithScore(a[..], v) == WithScore(old(a[..]), v)
  {
    var j := i;
    while j > 0 && a[j - 1].score < a[j].score
      invariant 0 <= j <= i
      invariant forall k, l :: 0 <= k < l <= i && k != j && l != j ==> a[k].score >= a[l].score
      invariant forall l :: j < l <= i ==> a[j].score > a[l].score
      invariant multiset(a[..]) == multiset(old(a[..]))
      invariant forall v :: WithScore(a[..], v) == WithScore(old(a[..]), v)
    {
      SwapAdjacent(a, j);
      j := j - 1;
    }
  }
}
