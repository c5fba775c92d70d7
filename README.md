# Joke board: a Dafny model

This project models the state core of a small React joke application. `JokeBoard`
(JokesApp_JS/src/JokeList.js) keeps a list of jokes `{id, text, score}`, a `loading` flag
and a `seenJokes` set of texts. It fetches jokes ten requests at a time and drops
texts it has seen. It applies up- and down-votes, saves the list to the browser's
local storage, and sorts the list by descending score whenever it renders. `Joke`
(JokesApp_JS/src/Joke.js) maps a score to one of seven tiers, each with a border
colour and an emoji class, and forwards a click on a vote arrow to the board.

Files and modules:

- `wrappers.dfy`, module `Wrappers`: the `Option` type for a store entry that may be absent.
- `joke_view.dfy`, module `JokeView` (Joke.js, pure): `Tier`, `GetColor`, `GetEmoji` and
  `HandleClick`, with the lemmas about the thresholds.
- `joke_list_spec.dfy`, module `JokeListSpec`: the joke record and the pure functions
  that say what a batch keeps (`Accepted`, `Stamp`, `Batch`) and what a vote does
  (`UpdateScores`, `ApplyVotes`), with their lemmas.
- `joke_list.dfy`, module `JokeList` (JokeList.js, imperative): class `JokeBoard`, whose
  fields are `loading`, the `jokes` array and `seenJokes`, and class `Storage` for the
  local-storage entry "jokes". It also holds the in-place sort `SortByScore`.

How the outside world is modelled:

- The joke source is a sequence of responses. Each is `Text(t)` or `Error`, where
  `Error` stands for any exception thrown while fetching or reading a response.
  Only the first ten are read.
- `uuid()` is a sequence `ids` of fresh ids. The k-th joke kept in a batch gets `ids[k]`.
  `BatchKeepsIdsUnique` states what follows when the ids are distinct and new.
- Local storage is a `Storage` object holding `Option<seq<Joke>>`. JSON serialisation
  is taken to be the identity.
- Every React `setState` is one atomic step. React re-renders before it runs the
  update's callback, and `render` sorts the jokes in place when not loading. So
  `GetJokes` and `UpdateScore` apply the update, then `Render`, then save: the
  stored list is the list as sorted for display.
- `Array.prototype.sort` is stable, as ECMAScript 2019 and later require. `SortByScore`
  is an insertion sort with that contract: scores never increase, and jokes with equal
  scores keep their order. `StableSortUnique` shows that this fixes the result exactly.

Behaviours of the code that the model keeps as written:

- `seenJokes` is never written after the constructor (JokeList.js:16). A text
  fetched twice in one batch, or fetched again in a later batch, is appended
  again (`RepeatInBatchKeptTwice`, and `seenJokes == old(seenJokes)` in `GetJokes`).
- A failed batch does not reset `loading` (JokeList.js:51-53). After the "Fetch
  Jokes" button, a failing batch leaves the board loading, so every later
  `Render` shows the spinner (`JokeBoard.HandleClick`).
- A stored entry that is not valid JSON makes `JSON.parse` throw in the
  constructor (JokeList.js:12). Storage here holds lists, so this case is
  outside the model.

## Model

| member | source | states |
|---|---|---|
| JokeView.Tier | JokesApp_JS/src/Joke.js:20-36 | every score falls in exactly one of seven tiers: tier 0 iff negative, tier 6 iff at least 15, and tier t in between iff the score lies in [3(t-1), 3t) |
| JokeView.GetColor | JokesApp_JS/src/Joke.js:20-36 | the colour chain picks the colour table entry of the score's tier |
| JokeView.GetEmoji | JokesApp_JS/src/Joke.js:39-55 | the emoji chain picks the emoji table entry of the score's tier, using the same thresholds as the colour |
| JokeView.ColorIsTotalAndTiered | JokesApp_JS/src/Joke.js:20-36 | every integer score gets one of the seven colours, and that colour belongs to its tier alone |
| JokeView.ColorBands | JokesApp_JS/src/Joke.js:21-34 | 15 and above is '#4CAF50', [12,15) '#8BC34A', [9,12) '#CDDC39', [6,9) '#FFEB3B', [3,6) '#FFC107', [0,3) '#FF9800', negative '#f44336', each in both directions |
| JokeView.TierMonotone | JokesApp_JS/src/Joke.js:20-36 | a higher score never gets a lower tier |
| JokeView.ColorAndEmojiAgree | JokesApp_JS/src/Joke.js:39-55 | two scores share a colour iff they share a tier iff they share an emoji |
| JokeView.HandleClick | JokesApp_JS/src/Joke.js:14-17 | a click forwards the arrow's element id as the vote kind and the joke's own id, unchanged |
| JokeListSpec.TextSet | JokesApp_JS/src/JokeList.js:16 | a text is in the seen set iff some joke of the list has it |
| JokeListSpec.Accepted | JokesApp_JS/src/JokeList.js:33-41 | a batch keeps a text iff it was fetched and is not in the seen set, and keeps at most one text per request |
| JokeListSpec.Stamp | JokesApp_JS/src/JokeList.js:37 | the k-th new record has the k-th fresh id, the k-th kept text and score 0 |
| JokeListSpec.AcceptedAppend | JokesApp_JS/src/JokeList.js:33-41 | the kept texts come in fetch order: keeping the answers a then b gives a's kept texts followed by b's |
| JokeListSpec.AllSeenAddsNothing | JokesApp_JS/src/JokeList.js:36-40 | answers that are all seen texts add nothing |
| JokeListSpec.AllNewKeepsAll | JokesApp_JS/src/JokeList.js:36-37 | answers that are all unseen texts are all kept, in order, repeats included |
| JokeListSpec.AcceptedCount | JokesApp_JS/src/JokeList.js:33-41 | a batch keeps exactly as many texts as there are answers that are unseen texts, however seen and unseen answers are interleaved |
| JokeListSpec.FiveNewFiveSeen | JokesApp_JS/src/JokeList.js:33-41 | five new and five seen answers add exactly five jokes |
| JokeListSpec.RepeatInBatchKeptTwice | JokesApp_JS/src/JokeList.js:33-41 | an unseen text fetched twice in one batch is kept twice, because the seen set is not updated |
| JokeListSpec.BatchKeepsIdsUnique | JokesApp_JS/src/JokeList.js:37-46 | appending a batch stamped with distinct ids not already in the list keeps the list's ids unique |
| JokeListSpec.UpdateScores | JokesApp_JS/src/JokeList.js:57-69 | the length, order, ids and texts stay the same; a joke with the voted id gains +1 for "up-vote" and -1 for any other vote; every other joke is unchanged |
| JokeListSpec.AbsentIdNoChange | JokesApp_JS/src/JokeList.js:60-68 | a vote for an id no joke has leaves the list unchanged |
| JokeListSpec.ApplyVotes | JokesApp_JS/src/JokeList.js:57-69 | a sequence of votes keeps the list's length |
| JokeListSpec.ScoreIsNetSum | JokesApp_JS/src/JokeList.js:57-69 | for the vote updates alone, with no re-render between them, each joke keeps its position, id and text, and its score is its old score plus the net votes addressed to its id |
| JokeListSpec.VoteStepById | JokesApp_JS/src/JokeList.js:57-74 | after one vote and its re-render (sorted or, while loading, in order), every joke of a list with unique ids is still there with its id and text, moved by the vote if it is the voted one, and ids stay unique |
| JokeListSpec.BoardScoreIsNetSum | JokesApp_JS/src/JokeList.js:57-74 | over any sequence of votes each followed by the re-render, the joke with a given id keeps its text, its score is its old score plus the net votes for that id, and it is the only joke with that id |
| JokeListSpec.VoteKeepsIdsUnique | JokesApp_JS/src/JokeList.js:57-69 | a vote keeps the ids of the list unique |
| JokeListSpec.ThreeUpOneDown | JokesApp_JS/src/JokeList.js:62-66 | three up-votes and one down-vote take a joke from 0 to 2 |
| JokeListSpec.ClickVotesClickedJoke | JokesApp_JS/src/Joke.js:14-17 | with unique ids, a forwarded click moves the clicked joke's score by one in the arrow's direction and changes no other joke |
| JokeList.Storage.Save | JokesApp_JS/src/JokeList.js:49 | after a save, the store holds exactly the saved list |
| JokeList.JokeBoard.constructor | JokesApp_JS/src/JokeList.js:8-17 | the jokes are the stored list, or empty if nothing is stored; loading is false; the seen set is exactly the initial texts |
| JokeList.JokeBoard.GetJokes | JokesApp_JS/src/JokeList.js:30-54 | it makes ten requests and never changes the seen set. If none throws, loading becomes false and the list becomes the old list followed by the batch, stably sorted by the re-render into non-increasing score order (scores never increase, same jokes, and jokes of equal score keep their order, which fixes the list exactly); that sorted list is what is saved. If one throws, the list, loading and the store are unchanged. At most ten jokes are added |
| JokeList.JokeBoard.ComponentDidMount | JokesApp_JS/src/JokeList.js:20-22 | a batch is fetched iff the board starts out empty; if no request throws, the list is then exactly the batch in fetch order (all its scores are 0, so the stable sort keeps it), loading is false and the store holds it; otherwise nothing changes |
| JokeList.JokeBoard.HandleClick | JokesApp_JS/src/JokeList.js:25-27 | loading is set, then a batch is fetched and the list ends as the old list followed by the batch, stably sorted as in `GetJokes`; if a request throws, loading stays true and the list is unchanged |
| JokeList.JokeBoard.UpdateScore | JokesApp_JS/src/JokeList.js:57-74 | the list becomes `UpdateScores` of the old list, stably sorted by the re-render into non-increasing score order unless loading; that list is what is saved; loading and the seen set are unchanged; so each call is one `VoteStep`, the step `BoardScoreIsNetSum` chains |
| JokeList.JokeBoard.Render | JokesApp_JS/src/JokeList.js:77-89 | while loading, it shows the spinner and leaves the list alone; otherwise it sorts the list in place into a permutation that is non-increasing in score, keeping the order of equal scores, and shows it |
| JokeList.SortByScore | JokesApp_JS/src/JokeList.js:89 | the array ends non-increasing in score, is a permutation of what it held, and for every score keeps the jokes with that score in their old order (a stable sort) |
| JokeList.Insert | JokesApp_JS/src/JokeList.js:89 | one insertion step extends the non-increasing prefix by one joke, keeping the multiset and each score's order |
| JokeList.SwapAdjacent | JokesApp_JS/src/JokeList.js:89 | exchanging two neighbours of different score keeps the multiset and each score's order |
| JokeListSpec.WithScore | JokesApp_JS/src/JokeList.js:89 | the subsequence of a list for one score holds exactly the jokes of the list with that score |
| JokeListSpec.WithScoreAppend | JokesApp_JS/src/JokeList.js:89 | filtering by score distributes over concatenation |
| JokeListSpec.SwapKeepsWithScore | JokesApp_JS/src/JokeList.js:89 | swapping neighbours of different scores changes no score's subsequence |
| JokeListSpec.StableSortUnique | JokesApp_JS/src/JokeList.js:89 | two non-increasing lists with the same subsequence for every score are equal, so the stable sort has exactly one result |
| JokeListSpec.EqualScoresStay | JokesApp_JS/src/JokeList.js:89 | a list whose jokes all share one score is its own stable sort, as for a fresh batch at score 0 |
| JokeListSpec.PermutationKeepsIdsUnique | JokesApp_JS/src/JokeList.js:89 | any rearrangement of a list with unique ids, such as the sort, keeps them unique |
| JokeListSpec.SortedVoteKeepsIdsUnique | JokesApp_JS/src/JokeList.js:57-74 | a vote followed by the re-render's sort keeps the list's ids unique |
| JokeList.ReloadAfterVote | JokesApp_JS/src/JokeList.js:12-16 | a board rebuilt from the store after a vote holds exactly the voted list as stably sorted by the re-render, and its seen set is that list's texts |

## Left out

- JSX rendering, CSS, Font Awesome markup and the spinner's markup are presentation only. `Render` returns the spinner or the list to show, and nothing else.
- `axios.get` and reading `response.data.attachments[0].text` are network I/O. They are a sequence of `Text`/`Error` responses. A response without `data.attachments[0]` throws and is an `Error`. A response whose `attachments[0]` has no `text` yields `undefined`, which the code would append as a joke. The model folds that case into `Error` by choice, and does not cover it.
- `uuid()` is a foreign random generator. It is a supply of ids; that they are distinct is a hypothesis of `BatchKeepsIdsUnique`, not a guarantee.
- `JSON.stringify`, `JSON.parse` and `window.localStorage` are modelled as a store of `Option<seq<Joke>>`. A stored text that fails to parse is not modelled.
- React's asynchronous, batched `setState` and `async`/`await` interleaving are not modelled. Each update is one sequential step, so a second batch started while one is in flight is not covered.
- `console.log` diagnostics are not modelled.
- `updateScore` increments the joke objects in place. The model replaces them with updated values, so sharing of those objects outside the list is not captured.
- Scores are unbounded integers. JavaScript numbers are doubles, whose integers are exact far beyond any reachable vote count.
