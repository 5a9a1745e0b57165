# Phonics Master rule engines in Dafny

Phonics Master (the `english_battle` repository) is a browser game for learning English spelling and vocabulary. This project models its rules: what each screen and mini-game does with an input, a timer firing or a random draw, and what state follows.

The model covers:

- **The match controller.** Single-player, local versus and online versus; levels, health, scoring, the countdown clock, round winners and game over.
- **The level editor.** Adding, editing and deleting levels, and checking the form on save; levels are stored in browser storage.
- **The letter-slot puzzles.** Filling the slots from the letter pool by drag or key, returning letters, and checking the word.
- **The single-player quiz screen.**
- **Eight versus mini-games.** Scramble, Word Snake, Memory Match, Falling Letters, Word Shooter, Bomb, Speed Typing and Listening.
- **The quiz show.** Up to four players and a timed reveal.
- **The plain versus screen.**
- **The online room table.** Creating, joining, answering, statistics, leaving, and listing waiting rooms.
- **The AI quiz post-processing.** Removing code fences, vowel indices and the highlight rule.
- **The result-screen rating, and the built-in levels.**

Outside effects are modelled in two ways:

- **Timers are explicit steps.** A pending timeout is a flag or a queue in the model's state, and the caller fires it with a step method.
- **Randomness and the clock are parameters.** `Math.random` becomes a draw stream, or a permutation for the sort-based shuffles. `Date.now()` is passed in.

React state is modelled as a class per component whose fields the handlers update. Pure helpers are functions, and every operation is paired with lemmas about what it keeps or undoes.

Some source behaviours the model keeps as written:

- The quiz show scores a player twice who selects twice before the reveal.
- Falling Letters does not restart after a level change.
- In Word Snake a wrong letter costs no length.
- Memory Match keeps its start flag and pending timers across a level change.
- Word Shooter restarts its timer only when the word changes.

## Model

| member | source | states |
|---|---|---|
| App.FreshPlayer | App.tsx:185-188 | a player joins with its side and name, score 0, health 100, an empty input and no verdict |
| App.VersusStart | App.tsx:185-198 | a match starts at level 0 with score 0, the full clock, status `versus`, no winner and two fresh players |
| App.AfterVersusAnswer | App.tsx:260-297 | only the answering player changes: input and verdict recorded, score up by one exactly when correct; a correct answer names that player round winner and, online, announces the new score; without players nothing happens |
| App.Damaged | App.tsx:306 | the new health is never negative, is 0 exactly when the damage reaches the health, and is otherwise health minus damage |
| App.AfterHealthUpdate | App.tsx:300-348 | only the damaged player's health changes, floored at 0; at 0 the match ends with the other player as winner; online the new health is sent, followed by the end message when it is 0 |
| App.ResetRound | App.tsx:387-390 | both players have their input cleared and verdict reset, scores and health kept |
| App.WinnerByHealth | App.tsx:363-368 | player 1 wins exactly with more health, player 2 exactly with more health, a draw exactly on equal health |
| App.AfterVersusNextLevel | App.tsx:350-408 | nothing changes when a player has no health left; after the last level the match ends with the winner by health (announced online); otherwise the level index rises by one, the round is reset, the round winner cleared and, online, the new index sent |
| App.AfterMessage | App.tsx:64-140 | a correct remote answer sets that player's score and verdict and names the round winner; a remote health sets it and ends the match at 0; a remote next sets the index and resets the round; a remote end ends the match with its winner; other messages and a missing player pair change nothing; nothing is sent |
| App.AfterLevelComplete | App.tsx:410-433 | the earned points are added; on the last level the game is over, otherwise the level index rises by one |
| App.AfterTick | App.tsx:152-159 | with time left the clock drops by one and stays non-negative; at zero the game is over and nothing else changes |
| App.AnswerScoresIffCorrect | App.tsx:262-277 | the answering player's score rises by one if and only if the answer is right, stays put if and only if it is wrong, and the other player's score never moves |
| App.SecondCorrectAnswerAlsoScores | App.tsx:275-278 | two correct answers in one round both score, and the later one overwrites the round winner |
| App.HealthStaysNonNegative | App.tsx:304-310 | a health update keeps every player's health non-negative, whatever the damage |
| App.HealthMessagesReplay | App.tsx:87-111 | applying the health (and end) messages a local update sends to the same prior state reproduces the sender's new state |
| App.RemoteNextMatchesLocalNext | App.tsx:114-129 | a remote `next` carrying the following index has exactly the effect of advancing locally |
| App.CountdownEndsGame | App.tsx:150-161 | from `t` seconds, `n <= t` ticks count the clock down by `n`, and any later tick leaves the game over with the clock at 0 |
| App.LevelCompleteAdvancesUntilLast | App.tsx:410-433 | completing a level keeps the index inside the level list, and only the last level ends the game |
| App.AppState.constructor | App.tsx:19-59 | the stored levels when readable, else the built-in ones; a room code in the address opens the online waiting room |
| App.AppState.Commit | App.tsx:62-142 | the new state is adopted, the round winner follows the transition, sent messages are appended, and the message handler is registered once an online match is in play |
| App.AppState.SaveLevels | App.tsx:145-148 | the level list becomes the saved one |
| App.AppState.StartGame | App.tsx:163-176 | refused exactly when there are no levels; otherwise a fresh single-player game with the interval running |
| App.AppState.StartVersusGame | App.tsx:180-200 | refused exactly when there are no levels; otherwise a local match with two fresh players and player 2 not yet connected |
| App.AppState.Player2Join | App.tsx:203-205 | player 2 is connected |
| App.AppState.CreateRoom | App.tsx:220-227 | refused exactly when there are no levels; otherwise the waiting room without a room code |
| App.AppState.OnlineGameStart | App.tsx:230-251 | an online match between host and guest with both connected and the message handler registered |
| App.AppState.OnlineBack | App.tsx:254-258 | the handler is dropped, the room code cleared and the intro shown |
| App.AppState.VersusAnswer | App.tsx:260-297 | the controller applies the answer transition against the current level's word; the message handler is registered once the match is online and in play, and the levels, interval, room, host flag and player-2 connection are left as they were |
| App.AppState.HealthUpdate | App.tsx:300-348 | the controller applies the health transition and leaves the round winner alone; the handler registration follows the new state, and the levels, interval, room, host flag and player-2 connection are left as they were |
| App.AppState.VersusNextLevel | App.tsx:350-408 | the controller applies the next-level transition for its level count; the handler registration follows the new state, and the levels, interval, room, host flag and player-2 connection are left as they were |
| App.AppState.ReceiveMessage | App.tsx:62-142 | a peer message changes the game only while the handler is registered, sends nothing, and leaves the registration, levels, interval, room, host flag and player-2 connection as they were |
| App.AppState.LevelComplete | App.tsx:410-433 | the controller applies the level-complete transition and stops the interval after the last level |
| App.AppState.TimerTick | App.tsx:150-161 | a running interval applies one tick and stops itself on the tick that ends the game; a stopped one changes nothing |
| App.AppState.ResetGame | App.tsx:435-450 | back to the initial state with no round winner, no room, no handler and no interval; the levels, the messages sent and the player-2 connection flag are kept |
| LevelEditor.Pieces | components/AdminScreen.tsx:105-107 | one piece per comma-separated item, each trimmed |
| LevelEditor.KeepSingles | components/AdminScreen.tsx:108 | keeps exactly the items one character long, never more items than given |
| LevelEditor.KeepParsed | components/AdminScreen.tsx:114-117 | every item that parses as an integer contributes its value, and every value kept comes from such an item |
| LevelEditor.ParseIndices | components/AdminScreen.tsx:114-122 | the parsed indices, or `[0]` when none parse; never empty |
| LevelEditor.FindPresetIn | components/AdminScreen.tsx:112 | a found preset is in the list and carries the name; none is found exactly when no preset has it |
| LevelEditor.RuleFor | components/AdminScreen.tsx:110-125 | a rule is attached exactly when a known preset is selected, and it is that preset's name, colour and description with the parsed indices |
| LevelEditor.DeleteById | components/AdminScreen.tsx:149 | the result holds exactly the entries whose id differs, never more entries than before |
| LevelEditor.SaveSpec | components/AdminScreen.tsx:95-141 | refused exactly when the sentence lacks the blank or the word is all white space; otherwise the level keeps the edited id or takes the clock's, has the trimmed sentence, the trimmed lower-cased non-empty word, the trimmed picture or the default, the parsed distractors and rule, and replaces the entries with its id or is appended |
| LevelEditor.IndexStrings | components/AdminScreen.tsx:57 | one decimal string per index |
| LevelEditor.PiecesOfJoin | components/AdminScreen.tsx:54 | joining items with ", " and splitting and trimming them again gives the items back when they hold no comma or outer white space |
| LevelEditor.KeepSinglesAppend | components/AdminScreen.tsx:105-108 | the length filter keeps the items in their original order, each as often as it occurs: filtering a concatenation concatenates the filtered parts |
| LevelEditor.KeepSinglesOne | components/AdminScreen.tsx:108 | one item on its own is kept exactly when it is one character long |
| LevelEditor.KeepParsedAppend | components/AdminScreen.tsx:114-117 | the parsed indices keep the order in which they were written: parsing a concatenation concatenates the parsed parts |
| LevelEditor.KeepSinglesOfSingles | components/AdminScreen.tsx:108 | a list of one-character items passes the length filter unchanged |
| LevelEditor.KeepParsedOfRendered | components/AdminScreen.tsx:57 | indices rendered as decimals parse back to themselves |
| LevelEditor.DistractorsRoundTrip | components/AdminScreen.tsx:54 | distractors shown in the form and saved again are unchanged, when each is one character other than a comma or white space |
| LevelEditor.IndicesRoundTrip | components/AdminScreen.tsx:57 | indices shown in the form and saved again are unchanged, and an empty list comes back as `[0]` |
| LevelEditor.NoCommaInIntToString | components/AdminScreen.tsx:57 | a rendered integer contains no comma |
| LevelEditor.RuleRebuiltFromPreset | components/AdminScreen.tsx:55-57 | a level showing a preset's rule comes back from a save with the rule's name and indices but the preset's colour and description |
| LevelEditor.RuleRoundTrip | components/AdminScreen.tsx:110-125 | a rule in saved form survives being loaded into the form and saved |
| LevelEditor.EditKeepsText | components/AdminScreen.tsx:50-66 | saving a level's own form unchanged keeps its id, text, picture and distractors; only the rule is rebuilt |
| LevelEditor.EditWithoutChangesKeepsLevel | components/AdminScreen.tsx:127-138 | opening a level in saved form and saving it without changes gives back the same level at the same places |
| LevelEditor.ReplaceByOwnEntry | components/AdminScreen.tsx:138 | replacing an entry by itself changes nothing |
| LevelEditor.ReplaceByIdSpec | components/AdminScreen.tsx:138 | replacing by id keeps length and order, and exactly the entries with that id change |
| LevelEditor.ReplaceAbsentId | components/AdminScreen.tsx:138 | saving a level whose id is no longer present changes nothing |
| LevelEditor.DeleteByIdAppend | components/AdminScreen.tsx:149 | deletion distributes over concatenation, so the rest keeps its order |
| LevelEditor.DeleteAbsentId | components/AdminScreen.tsx:149 | deleting an id nobody carries changes nothing |
| LevelEditor.CreateThenDelete | components/AdminScreen.tsx:128-149 | creating a level with a fresh id and deleting it gives back the list as it was |
| LevelEditor.Editor.constructor | components/AdminScreen.tsx:21-35 | the editor starts on the given list with an empty form, editing nothing |
| LevelEditor.Editor.ResetForm | components/AdminScreen.tsx:37-48 | every field cleared, editing nothing, not creating |
| LevelEditor.Editor.LoadLevelToForm | components/AdminScreen.tsx:50-66 | the form shows the level and the level is being edited |
| LevelEditor.Editor.StartCreating | components/AdminScreen.tsx:153-156 | a cleared form in creation mode |
| LevelEditor.Editor.HandleSave | components/AdminScreen.tsx:95-145 | the outcome is the save of the current form; an accepted save replaces the list and clears the form, a refused one changes nothing |
| LevelEditor.Editor.HandleDelete | components/AdminScreen.tsx:147-151 | a confirmed delete removes the id's entries, an unconfirmed one changes nothing |
| Constants.LevelIds | constants.ts:4-49 | there are five built-in levels, with ids 1 to 5 in order, all distinct |
| Constants.SentencesHaveOneBlank | constants.ts:7-41 | every built-in sentence contains the blank, at exactly one position, so it passes the editor's sentence check |
| Constants.TargetWordsAreLowerCase | constants.ts:8-42 | every built-in answer word is a non-empty run of lower-case letters |
| Constants.DistractorsAreSingleLetters | constants.ts:10-44 | every built-in distractor is one character, neither a comma nor white space, so the editor's length filter keeps it |
| Constants.PhonicsIndicesInsideWord | constants.ts:19-46 | every highlighted position lies inside its answer word |
| BuiltInLevels.BuiltInLevelNormalised | constants.ts:4-49 | levels 1, 2, 4 and 5 are in exactly the form the editor saves |
| BuiltInLevels.LevelSurvivesEditing | components/AdminScreen.tsx:95-145 | opening one of levels 1, 2, 4, 5 in the editor and saving it unchanged leaves any list alone in which it is the only entry with its id |
| BuiltInLevels.BuiltInLevelsSurviveEditing | constants.ts:4-49 | saving levels 1, 2, 4 and 5 unchanged from the editor gives back the built-in list itself |
| BuiltInLevels.LevelThreeRule | constants.ts:28-30 | the rule a save rebuilds for level 3 is the Magic E preset's, at the level's own positions 1 and 3 |
| BuiltInLevels.LevelThreeTakesPresetOnEdit | constants.ts:28-30 | saving level 3 from the editor, even unchanged, keeps everything but replaces its own rule colour and description with the preset's |
| Text.TrimEmptyIffBlank | components/AdminScreen.tsx:100 | a trimmed string is empty exactly when the input is all white space, as the blank-input guards assume |
| Text.TrimLowerCommute | components/versus-games/ListeningGame.tsx:76 | lower-casing then trimming gives the same as trimming then lower-casing |
| Text.SplitJoin | components/AdminScreen.tsx:105-106 | joining pieces without the separator and splitting on it again gives the pieces back |
| Text.JoinSplit | components/AdminScreen.tsx:105-106 | splitting on a separator and joining with it again gives the input back |
| Text.CaseMapping | App.tsx:262 | `toLowerCase` and `toUpperCase` keep the length, leave no ASCII capital (respectively small letter), leave every character that is not an ASCII letter alone, and each undoes the other up to its own mapping |
| Text.UpperEqIffLowerEq | components/versus-games/BombGame.tsx:81 | two strings are equal upper-cased exactly when they are equal lower-cased |
| Text.TrimStartSpec | components/AdminScreen.tsx:100 | trimming the start drops exactly the leading white space and leaves a string that is empty or starts with a non-space |
| Text.TrimEndSpec | components/AdminScreen.tsx:100 | trimming the end drops exactly the trailing white space and leaves a string that is empty or ends with a non-space |
| Text.Split | components/AdminScreen.tsx:105-106 | `split` on one character always yields at least one piece |
| Text.SplitPiecesHaveNoSeparator | components/AdminScreen.tsx:105-106 | no piece of a split contains the separator |
| Text.SplitAtFirstSeparator | components/AdminScreen.tsx:105-106 | a split cuts at the first separator: the text before it is the first piece and the rest is split in turn |
| Text.JsRem | components/versus-games/WordSnakeGame.tsx:162-163 | JavaScript's `%` takes the sign of the dividend and is smaller than the divisor in size |
| Text.ParseDecimal | components/AdminScreen.tsx:116 | `parseInt` reads an optionally signed decimal numeral as its value |
| Text.ParseIntRejects | components/AdminScreen.tsx:116-117 | `parseInt` is `NaN` when, after leading white space and an optional sign, no decimal digit follows |
| Text.ParseIntOfIntToString | components/AdminScreen.tsx:114-117 | parsing a rendered integer gives the integer back |
| Slots.FirstEmpty | components/QuizScreen.tsx:117 | the first empty slot when there is one, every slot before it filled; none exactly when the row is full |
| Slots.FindFirst | components/QuizScreen.tsx:67 | the first position whose element passes the test; none exactly when no element does |
| Slots.FilledOfFull | components/QuizScreen.tsx:77-78 | a full row holds one letter per slot, in slot order |
| Slots.FilledPut | components/QuizScreen.tsx:71-72 | filling an empty slot adds exactly that letter to the placed letters |
| Slots.FilledClear | components/QuizScreen.tsx:96-97 | emptying a filled slot removes exactly its letter from the placed letters |
| Slots.FilterDropsOne | components/QuizScreen.tsx:74 | a filter that rejects exactly one element removes that element and keeps the rest in order |
| QuizScreen.Letters | components/QuizScreen.tsx:25 | one single-character string per character of the word, in order |
| QuizScreen.Deal | components/QuizScreen.tsx:26-27 | the dealt tiles show the shuffled letters in order, each stamped with its index and the clock |
| QuizScreen.DropConserves | components/QuizScreen.tsx:66-74 | a drop changes nothing or moves exactly one tile from the pool into its slot: the letters on the board, the number of slots and the distinct ids are kept |
| QuizScreen.ReturnConserves | components/QuizScreen.tsx:94-99 | returning a letter keeps the letters on the board and the number of slots, and keeps the ids distinct when the clock's id is new |
| QuizScreen.ReturnUndoesDrop | components/QuizScreen.tsx:94-99 | returning the letter just dropped restores the slots and puts the same letter back at the end of the pool |
| QuizScreen.KeyFillsFirstEmptySlot | components/QuizScreen.tsx:105-120 | a letter key fills the first empty slot with the first pool tile matching it ignoring case and takes that tile out of the pool; a non-letter key, a letter not in the pool or a full row changes nothing |
| QuizScreen.LetterPuzzle.constructor | components/QuizScreen.tsx:16-32 | the screen opens with one empty slot per letter and the pool dealt from a permutation of the word's letters and the distractors |
| QuizScreen.LetterPuzzle.Open | components/QuizScreen.tsx:24-32 | a level change deals afresh from a permutation, empties the slots and clears the win flag |
| QuizScreen.LetterPuzzle.HandleDrop | components/QuizScreen.tsx:66-92 | the board becomes the drop's result, and a win is scheduled exactly when the drop took effect and the full row spells the word exactly |
| QuizScreen.LetterPuzzle.Drop | components/DropSlot.tsx:29-35 | the slot ignores a drag while the board is locked (the word already correct, passed as `isLocked` at QuizScreen.tsx:196), so nothing changes and no win is scheduled; otherwise exactly handleDrop's effect |
| QuizScreen.LetterPuzzle.ClickSlot | components/QuizScreen.tsx:94-101 | ignored once the word is correct; otherwise the clicked slot's letter goes back to the pool |
| QuizScreen.LetterPuzzle.KeyPress | components/QuizScreen.tsx:104-125 | ignored once the word is correct; otherwise the key's drop, with a win scheduled exactly as for a drop |
| QuizScreen.LetterPuzzle.FireWin | components/QuizScreen.tsx:41-63 | the 300 ms win timer fires `triggerWin`: the word is marked correct, which locks the board, and the 4.5 s completion is scheduled; none pending changes nothing |
| QuizScreen.LetterPuzzle.FireComplete | components/QuizScreen.tsx:61-63 | the scheduled completion reports 10 points and changes nothing else; none pending changes nothing |
| Shuffle.ShuffledIsPermutation | components/versus-games/ScrambleGame.tsx:33-36 | the Fisher-Yates pass only reorders: same length and the same elements with the same multiplicities |
| Shuffle.ShuffledKeepsApart | components/versus-games/ScrambleGame.tsx:33-36 | the shuffle never makes two elements share a key that no two shared before |
| Shuffle.IdentityDraws | components/versus-games/ScrambleGame.tsx:33-36 | drawing each position itself leaves the order alone |
| Shuffle.FisherYates | components/versus-games/ScrambleGame.tsx:33-36 | the in-place loop leaves the array equal to the specified shuffle of its old contents, a permutation of them |
| ScrambleGame.BuiltLetters | components/versus-games/ScrambleGame.tsx:27-31 | one letter per character of the word, remembering its index |
| ScrambleGame.ScrambleLetters | components/versus-games/ScrambleGame.tsx:26-38 | the scrambled letters are the specified shuffle of the built ones |
| ScrambleGame.ScrambledLettersKeepTheirPlace | components/versus-games/ScrambleGame.tsx:26-38 | the scrambled letters are a permutation of the built ones, and each is the word's character at its original index |
| ScrambleGame.DealTo | components/versus-games/ScrambleGame.tsx:48-49 | a player's copy has the same letters in the same order under ids of their own |
| ScrambleGame.Reported | components/versus-games/ScrambleGame.tsx:59-73 | at most one report, made exactly when the row is full and spells the word ignoring case, carrying the row as spelled |
| ScrambleGame.DropKeeps | components/versus-games/ScrambleGame.tsx:76-89 | a drop keeps a board holding exactly the player's dealt letters, one slot per letter, with no id twice |
| ScrambleGame.ReturnKeeps | components/versus-games/ScrambleGame.tsx:91-102 | a return keeps the same board invariant |
| ScrambleGame.DropShape | components/versus-games/ScrambleGame.tsx:79-85 | a drop takes exactly the found letter out of the pool and into the slot |
| ScrambleGame.ReturnUndoesDrop | components/versus-games/ScrambleGame.tsx:91-101 | returning the letter just dropped restores the row, with that letter moved to the end of the pool |
| ScrambleGame.InOrderIsAnswer | components/versus-games/ScrambleGame.tsx:59-62 | a row holding the word's letters in order is always accepted, as the word |
| ScrambleGame.AnswerSpellsWord | components/versus-games/ScrambleGame.tsx:59-62 | an accepted answer has one letter per slot and equals the word up to case |
| ScrambleGame.Scramble.constructor | components/versus-games/ScrambleGame.tsx:26-56 | both players get the shuffled letters in their pool and a row of empty slots, one per letter |
| ScrambleGame.Scramble.Drop | components/versus-games/ScrambleGame.tsx:76-118 | ignored while disabled; otherwise the drop on that player's board, reporting an answer exactly when the drop took effect and the row is an answer; the other board never changes |
| ScrambleGame.Scramble.Return | components/versus-games/ScrambleGame.tsx:91-131 | ignored while disabled; otherwise the return on that player's board; the other board never changes and nothing is reported |
| WordSnakeGame.FreshDistinct | components/versus-games/WordSnakeGame.tsx:39-52 | the cells the redraw loop takes are pairwise distinct and each is one of the draws |
| WordSnakeGame.FreshNext | components/versus-games/WordSnakeGame.tsx:45-50 | one more draw is taken exactly when its cell is not taken yet |
| WordSnakeGame.ItemsFit | components/versus-games/WordSnakeGame.tsx:43-69 | letters laid on distinct grid cells are spread out, the word's letters first at their own positions in the word, then the decoys carrying -1 |
| WordSnakeGame.PlaceNext | components/versus-games/WordSnakeGame.tsx:45-50 | the `do ... while` loop ends on a cell not yet taken, and that cell is the next fresh cell of the stream |
| WordSnakeGame.GenerateLetters | components/versus-games/WordSnakeGame.tsx:37-72 | the layout is the word's letters then eight decoys from the alphabet, on the first fresh cells of the stream in order |
| WordSnakeGame.LayoutFits | components/versus-games/WordSnakeGame.tsx:37-72 | a layout holds word-length plus eight letters on distinct grid cells, letter `i` of the word carrying index `i` and every decoy carrying -1 |
| WordSnakeGame.Toward | components/versus-games/WordSnakeGame.tsx:111-139 | each heading is a unit step along one axis |
| WordSnakeGame.TurnNeverReverses | components/versus-games/WordSnakeGame.tsx:112-139 | a turn is taken if and only if it does not reverse the snake, an ignored press keeps the direction, and the result is never the reverse |
| WordSnakeGame.SnakeKey | components/versus-games/WordSnakeGame.tsx:111-140 | player 1 steers exactly with W, A, S, D in either case, player 2 exactly with the arrow keys |
| WordSnakeGame.StepWraps | components/versus-games/WordSnakeGame.tsx:160-164 | the new head stays on the grid: one cell along the direction, re-entering at the opposite edge |
| WordSnakeGame.Move | components/versus-games/WordSnakeGame.tsx:159-201 | the head steps on; eating the next letter of the word collects it, removes it and grows the snake; eating any other letter removes it and the snake keeps its length; with nothing eaten the tail follows |
| WordSnakeGame.TakeOff | components/versus-games/WordSnakeGame.tsx:178 | with letters on distinct cells, filtering out the eaten letter removes exactly that one |
| WordSnakeGame.Splice | components/versus-games/WordSnakeGame.tsx:193 | leaving out one letter keeps the others on distinct cells and fitting the word |
| WordSnakeGame.MoveKeeps | components/versus-games/WordSnakeGame.tsx:166-200 | a move keeps the snake on the grid and the layout valid; the snake grows by one exactly when it eats the next letter, a letter leaves exactly when one is eaten, and what is collected stays the start of the word |
| WordSnakeGame.Reported | components/versus-games/WordSnakeGame.tsx:180-186 | the word is reported, once and as the upper-case word, exactly by the move that eats its last letter |
| WordSnakeGame.WordSnake.constructor | components/versus-games/WordSnakeGame.tsx:74-103 | both snakes start as one cell at (0,5) and (9,5) facing each other, each grid's letters are the layout generateLetters makes from that grid's own draws (the word's letter i first, carrying index i, then the eight decoys with index -1, on the first distinct cells drawn), and the start timer is set |
| WordSnakeGame.WordSnake.Start | components/versus-games/WordSnakeGame.tsx:97-100 | the start timer starts the game and changes nothing else |
| WordSnakeGame.WordSnake.KeyDown | components/versus-games/WordSnakeGame.tsx:106-145 | before the start or while disabled nothing changes; otherwise a steering key turns only its player's snake |
| WordSnakeGame.WordSnake.Tick | components/versus-games/WordSnakeGame.tsx:203-210 | before the start or while disabled nothing changes; otherwise both snakes move and the moves that complete the word report it |
| WordSnakeGame.WordSnake.ChangeLevel | components/versus-games/WordSnakeGame.tsx:86-103 | both grids laid out afresh from their own draws, the word's letter i first with index i and then the decoys with index -1, the snakes back at their starts facing each other, nothing collected, the game stopped and the start timer set |
| MemoryMatchGame.BuiltFacesAt | components/versus-games/MemoryMatchGame.tsx:34-53 | before the shuffle, card 2i is the letter card of letter i and card 2i+1 its position card showing i+1 |
| MemoryMatchGame.BuiltPair | components/versus-games/MemoryMatchGame.tsx:34-53 | the two cards of letter i sit at positions 2i and 2i+1: the letter card, then the position card |
| MemoryMatchGame.BuiltCard | components/versus-games/MemoryMatchGame.tsx:34-53 | card 2i+r of the built deck belongs to letter i, is a letter card for r = 0 and a position card for r = 1, and carries the id of that kind and letter |
| MemoryMatchGame.BuiltFace | components/versus-games/MemoryMatchGame.tsx:34-53 | card x of the built deck belongs to letter x/2, is a letter card exactly when x is even, and has the id of that kind and letter |
| MemoryMatchGame.BuiltIdsApart | components/versus-games/MemoryMatchGame.tsx:37-46 | no two cards of the built deck share an id |
| MemoryMatchGame.PairsAreLetters | components/versus-games/MemoryMatchGame.tsx:130 | two different cards of the deck make a pair if and only if they are the two cards of one letter |
| MemoryMatchGame.GenerateCards | components/versus-games/MemoryMatchGame.tsx:31-62 | the deck is the built cards put through the Fisher-Yates shuffle of the draws: two cards per letter, none sharing an id |
| MemoryMatchGame.DeckIsBuiltCards | components/versus-games/MemoryMatchGame.tsx:55-59 | the shuffled deck is a permutation of the built cards and its ids stay distinct |
| MemoryMatchGame.DealtCards | components/versus-games/MemoryMatchGame.tsx:76-77 | a player's copy is the deck card by card, face down and unpaired, each id prefixed with that player |
| MemoryMatchGame.FreshHandOk | components/versus-games/MemoryMatchGame.tsx:76-85 | a fresh hand holds the dealt deck face down with nothing selected and the turn open |
| MemoryMatchGame.DealtIdsApart | components/versus-games/MemoryMatchGame.tsx:76-77 | a player's copy keeps the ids apart |
| MemoryMatchGame.FlipById | components/versus-games/MemoryMatchGame.tsx:115-117 | exactly the cards with the clicked id are turned over and all others stay as they were |
| MemoryMatchGame.FlipTurnsOne | components/versus-games/MemoryMatchGame.tsx:110-117 | with distinct ids a click turns over the clicked card and no other |
| MemoryMatchGame.ClickOn | components/versus-games/MemoryMatchGame.tsx:108-125 | a click that is locked out, finds no card, or hits a turned or paired card changes nothing; otherwise the card is turned over, appended to the selection, and a second selection locks the turn |
| MemoryMatchGame.ClickKeeps | components/versus-games/MemoryMatchGame.tsx:108-125 | a click keeps the faces of the cards and the lock: the turn is open exactly while fewer than two cards are selected |
| MemoryMatchGame.SecondPickSchedules | components/versus-games/MemoryMatchGame.tsx:124-167 | a taking click sets a timer if and only if it is the second selection, and exactly then the turn locks; that timer records a found pair, with the letter and the match count plus one, exactly when the two cards pair, and otherwise the ids of both cards to turn back |
| MemoryMatchGame.MarkMatched | components/versus-games/MemoryMatchGame.tsx:134-138 | every card of the paired letter is marked paired and no other card changes |
| MemoryMatchGame.Unflip | components/versus-games/MemoryMatchGame.tsx:159-163 | exactly the selected cards are turned back and all others stay as they were |
| MemoryMatchGame.UnflipTurnsTwo | components/versus-games/MemoryMatchGame.tsx:159-163 | with distinct ids, turning back the two selected cards changes those two cards only |
| MemoryMatchGame.ResolvedKeeps | components/versus-games/MemoryMatchGame.tsx:133-166 | a fired timer keeps the faces, clears the selection and reopens the turn |
| MemoryMatchGame.PairResolvedMatchesBoth | components/versus-games/MemoryMatchGame.tsx:133-143 | a resolved pair raises the count by one and leaves both of its cards paired |
| MemoryMatchGame.Pairs | components/versus-games/MemoryMatchGame.tsx:99-106 | each timer is tagged with the player who set it |
| MemoryMatchGame.MemoryMatch.constructor | components/versus-games/MemoryMatchGame.tsx:28-93 | the word upper-cased, the deck its shuffled cards, both hands fresh, the game not started and nothing pending or reported |
| MemoryMatchGame.MemoryMatch.Start | components/versus-games/MemoryMatchGame.tsx:87-90 | the start timer starts the game and changes nothing else |
| MemoryMatchGame.MemoryMatch.ChangeLevel | components/versus-games/MemoryMatchGame.tsx:75-93 | a new level deals a fresh deck to fresh hands and leaves the started flag and the running pair timers alone |
| MemoryMatchGame.MemoryMatch.Click | components/versus-games/MemoryMatchGame.tsx:96-169 | ignored while disabled or before the start; otherwise only the clicking player's hand takes the click and a second selection adds its timer |
| MemoryMatchGame.MemoryMatch.Fire | components/versus-games/MemoryMatchGame.tsx:133-166 | a fired timer resolves its player's current hand, leaves the other alone, and a pair that makes the count it computed reach the word's length reports the word |
| FallingLettersGame.NewLetter | components/versus-games/FallingLettersGame.tsx:40-63 | a new letter carries its id and the player's progress length; with the 40% chance and letters still to catch it is the next letter of the word, otherwise a random capital; it is marked correct if and only if it is the letter needed next |
| FallingLettersGame.Click | components/versus-games/FallingLettersGame.tsx:113-146 | a click that finds no letter changes nothing; otherwise that letter leaves the screen, and the progress grows by the next letter of the word exactly when the clicked letter is that letter |
| FallingLettersGame.ClickKeeps | components/versus-games/FallingLettersGame.tsx:124-133 | the progress stays the start of the word, and it becomes complete exactly by catching the last letter |
| FallingLettersGame.FullProgressIsWord | components/versus-games/FallingLettersGame.tsx:133-136 | complete progress is the whole word |
| FallingLettersGame.Reported | components/versus-games/FallingLettersGame.tsx:133-140 | the word is reported, once and in capitals, exactly by the click that catches its last letter |
| FallingLettersGame.FallingLetters.constructor | components/versus-games/FallingLettersGame.tsx:29-37 | the word in capitals, both halves empty, the game not started and the start timer set |
| FallingLettersGame.FallingLetters.Start | components/versus-games/FallingLettersGame.tsx:66-72 | the start timer starts the game and changes nothing else |
| FallingLettersGame.FallingLetters.Spawn | components/versus-games/FallingLettersGame.tsx:75-86 | before the start or while disabled nothing appears; otherwise each player gets one new letter made from their own progress |
| FallingLettersGame.FallingLetters.FallOff | components/versus-games/FallingLettersGame.tsx:89-110 | while the game runs, a letter past the bottom leaves its player's half; nothing else changes |
| FallingLettersGame.FallingLetters.ClickLetter | components/versus-games/FallingLettersGame.tsx:113-146 | ignored while disabled; otherwise only the clicking player's half takes the click, and catching the last letter reports the word |
| FallingLettersGame.FallingLetters.ChangeLevel | components/versus-games/FallingLettersGame.tsx:149-155 | a new level clears both halves and stops the game, and no start timer is set again |
| WordShooterGame.Accepted | components/versus-games/WordShooterGame.tsx:70-74 | the decoys a draw stream yields, each draw whose letter the word lacks, never more than the draws |
| WordShooterGame.AcceptedAvoidsWord | components/versus-games/WordShooterGame.tsx:72-74 | no decoy letter is a letter of the word |
| WordShooterGame.AcceptedNext | components/versus-games/WordShooterGame.tsx:71-73 | one more draw adds its letter to the decoys exactly when the word does not hold it |
| WordShooterGame.Decoys | components/versus-games/WordShooterGame.tsx:70-84 | the redraw loops end with five decoys, those the first draws used yield |
| WordShooterGame.BuiltBalloons | components/versus-games/WordShooterGame.tsx:57-84 | before the shuffle, balloon i carries letter i of the word and the five decoys follow, each id naming its kind and position |
| WordShooterGame.GenerateBalloons | components/versus-games/WordShooterGame.tsx:52-87 | the field is a shuffle of the word's letters and five decoys the word lacks; every balloon fits the word and no two share an id |
| WordShooterGame.ShuffledBalloons | components/versus-games/WordShooterGame.tsx:86 | reordering the balloons keeps them a permutation of the built ones, each fitting the word, with distinct ids |
| WordShooterGame.MovedStaysOnGrid | components/versus-games/WordShooterGame.tsx:140-172 | a step moves one coordinate by exactly 5 unless that leaves [5, 95], where it stays, and the other coordinate is unchanged |
| WordShooterGame.Shoot | components/versus-games/WordShooterGame.tsx:184-232 | with nothing under the crosshair nothing changes; otherwise the first balloon hit goes, and its letter joins the progress exactly when it is the next letter of the word; the crosshair stays |
| WordShooterGame.ShootKeeps | components/versus-games/WordShooterGame.tsx:203-219 | what is popped stays the start of the word, and a shot completes it exactly when it pops the last letter |
| WordShooterGame.Reported | components/versus-games/WordShooterGame.tsx:219-226 | the word is reported, once and in capitals, exactly by the shot that pops its last letter |
| WordShooterGame.WordShooter.constructor | components/versus-games/WordShooterGame.tsx:37-49 | the word in capitals, both fields empty with the crosshairs at the centre, not started, and the start timer set |
| WordShooterGame.WordShooter.Start | components/versus-games/WordShooterGame.tsx:90-98 | the start timer starts the game and gives each player its own field: the shuffle, by that player's order, of the word's letters and the first five decoys accepted from that player's draws, with distinct ids; progress and crosshairs unchanged |
| WordShooterGame.DealtHoldsWord | components/versus-games/WordShooterGame.tsx:57-87 | a dealt field holds every letter of the word as its own balloon, plus five decoys, one for each decoy id |
| WordShooterGame.WordShooter.KeyDown | components/versus-games/WordShooterGame.tsx:136-181 | before the start or while disabled nothing changes; otherwise a steering key moves only its player's crosshair and a fire key shoots for that player only |
| WordShooterGame.WordShooter.ChangeLevel | components/versus-games/WordShooterGame.tsx:235-244 | both fields emptied, crosshairs back at the centre and the game stopped; the start timer is set again only when the word changed |
| BombGame.TimerColorOf | components/versus-games/BombGame.tsx:125-129 | the fuse shows red exactly at 3 seconds or less, orange exactly above 3 up to 7, yellow exactly above 7 |
| BombGame.TimerColorMonotone | components/versus-games/BombGame.tsx:125-129 | as the fuse burns down the colour only moves towards red |
| BombGame.ReportsAreIntact | components/versus-games/BombGame.tsx:77-91 | the answer check reports a player exactly when the game runs with input enabled and that player holds the word in any case and has not exploded; each at most once, player 1 first, always the word in capitals |
| BombGame.Bomb.constructor | components/versus-games/BombGame.tsx:19-29 | the word in capitals, empty inputs, a 15-second fuse, nobody exploded, and the countdown at 3 with the game not started |
| BombGame.Bomb.CountdownTick | components/versus-games/BombGame.tsx:34-46 | the countdown steps down by one second; reaching 0 hides it, starts the game and runs the answer check once |
| BombGame.Bomb.FuseTick | components/versus-games/BombGame.tsx:49-74 | the fuse burns only while the game runs with input enabled; above 1 it counts down, otherwise it shows 0 and exactly the players who have not exploded and lack the word explode, rerunning the check when a flag changed |
| BombGame.Bomb.Type | components/versus-games/BombGame.tsx:77-91 | an input is taken only while the game runs, input is enabled and its player is intact; a changed input reruns the answer check for both players |
| BombGame.Bomb.ChangeLevel | components/versus-games/BombGame.tsx:113-122 | inputs cleared, the fuse back to 15, nobody exploded and the countdown back at 3 |
| SpeedTypingGame.StatusAt | components/versus-games/SpeedTypingGame.tsx:137-144 | a letter box shows a match exactly when the typed letter there equals the word's letter ignoring case, wrong exactly when a different letter is typed there, and blank exactly when nothing is typed there yet |
| SpeedTypingGame.TypedIffAllMatch | components/versus-games/SpeedTypingGame.tsx:50 | an input is the word ignoring case if and only if it is as long as the word and every box shows a match |
| SpeedTypingGame.ReportsOnlyTyped | components/versus-games/SpeedTypingGame.tsx:46-60 | nothing is reported before the start or while disabled; afterwards a player is reported, with their input as typed, exactly when it is the word ignoring case |
| SpeedTypingGame.SpeedTyping.constructor | components/versus-games/SpeedTypingGame.tsx:19-23 | the level's word, empty inputs, the countdown at 3, the game not started and the word hidden |
| SpeedTypingGame.SpeedTyping.CountdownTick | components/versus-games/SpeedTypingGame.tsx:28-43 | the countdown steps down one second; reaching 0 starts the game, shows the word and runs the answer check once |
| SpeedTypingGame.SpeedTyping.Type | components/versus-games/SpeedTypingGame.tsx:46-60 | an input is taken only once the game runs and while enabled; a changed input reruns the answer check for both players |
| SpeedTypingGame.SpeedTyping.ChangeLevel | components/versus-games/SpeedTypingGame.tsx:82-88 | both inputs cleared, the word hidden and the countdown back at 3 |
| ListeningGame.HeardIgnoresSpaceAndCase | components/versus-games/ListeningGame.tsx:76 | a submission is right exactly when the trimmed input is the word ignoring case, and trimming the input first does not change the verdict |
| ListeningGame.Listening.constructor | components/versus-games/ListeningGame.tsx:19-23 | the level's word, empty inputs, nothing playing, no plays, no hint, and the automatic playback set |
| ListeningGame.Listening.Speak | components/versus-games/ListeningGame.tsx:30-51 | a playback runs afterwards, and nothing else changes; while one runs the call is ignored |
| ListeningGame.Listening.AutoPlay | components/versus-games/ListeningGame.tsx:61-63 | the automatic playback fires once and plays the word |
| ListeningGame.Listening.ClickSpeaker | components/versus-games/ListeningGame.tsx:163-164 | the speaker button plays the word only while nothing plays and fewer than three plays have ended |
| ListeningGame.Listening.SpaceKey | components/versus-games/ListeningGame.tsx:100-117 | space outside the inputs replays the word while fewer than three plays have ended; ignored while disabled |
| ListeningGame.Listening.SpeechEnd | components/versus-games/ListeningGame.tsx:39-42 | a playback's end stops it and counts one more play, and the hint shows exactly from the third |
| ListeningGame.Listening.SpeechError | components/versus-games/ListeningGame.tsx:44-46 | a failed playback stops without counting |
| ListeningGame.Listening.Type | components/versus-games/ListeningGame.tsx:140-142 | only the typing player's input changes, and not while disabled |
| ListeningGame.Listening.Submit | components/versus-games/ListeningGame.tsx:72-96 | blank input or a disabled screen sends nothing; a right answer is reported trimmed; a wrong one clears only that player's input |
| ListeningGame.Listening.ChangeLevel | components/versus-games/ListeningGame.tsx:54-69 | both inputs cleared, the play count back to 0, the hint hidden and the automatic playback set again |
| ListeningGame.CappedReplay | components/versus-games/ListeningGame.tsx:114-116 | after three plays neither the speaker button nor space starts another |
| QuizShowScreen.FreshPlayers | components/QuizShowScreen.tsx:1044-1056 | players numbered 1 to n, each at zero with nothing answered, no verdict and no streak |
| QuizShowScreen.Scored | components/QuizShowScreen.tsx:1156-1164 | at a reveal, a player whose last answer is the correct option gains the bonus and extends the streak, every other player keeps the score and loses the streak, and nothing else about a player changes |
| QuizShowScreen.ScoredTotal | components/QuizShowScreen.tsx:1152-1164 | a reveal adds exactly one bonus per correct player to the total score |
| QuizShowScreen.Answered | components/QuizShowScreen.tsx:1220-1222 | a selection records the option for the first player only |
| QuizShowScreen.Cleared | components/QuizShowScreen.tsx:1202 | the next question clears every answer and verdict and keeps scores and streaks |
| QuizShowScreen.Reset | components/QuizShowScreen.tsx:1262 | play again sets every score and streak to zero and clears answers and verdicts |
| QuizShowScreen.ResetTotal | components/QuizShowScreen.tsx:1262 | after play again the total score is zero |
| QuizShowScreen.KeyOptionSpec | components/QuizShowScreen.tsx:1242-1251 | exactly the keys F1 to F4 and 1 to 4 choose an option, each its own option 0 to 3 |
| QuizShowScreen.Leader | components/QuizShowScreen.tsx:1270 | the winner exists exactly when there are players; it has the highest score and every earlier player scores less, as the first entry of a stable sort by score, highest first |
| QuizShowScreen.LeaderFrom | components/QuizShowScreen.tsx:1270 | the scan keeps the earliest highest score seen so far |
| QuizShowScreen.QuizShow.constructor | components/QuizShowScreen.tsx:1042-1066 | the five built-in questions, fresh players, the first question, 15 seconds, the intro and nothing scheduled |
| QuizShowScreen.QuizShow.StartGame | components/QuizShowScreen.tsx:1072-1075 | the game plays with the full 15 seconds and nothing else changes |
| QuizShowScreen.QuizShow.Reveal | components/QuizShowScreen.tsx:1147-1211 | the screen reveals the captured correct option, the bonus is ten plus the captured seconds, all players are scored, and the question change is scheduled |
| QuizShowScreen.QuizShow.Tick | components/QuizShowScreen.tsx:1079-1096 | while playing with time left the clock counts down one second, and reaching zero reveals the current question with a bonus of ten; otherwise the clock is stopped |
| QuizShowScreen.QuizShow.Select | components/QuizShowScreen.tsx:1214-1230 | only while playing: the option is recorded for player 1 and a reveal is scheduled with the question and the clock of the moment |
| QuizShowScreen.QuizShow.KeyDown | components/QuizShowScreen.tsx:1234-1253 | space on the intro starts the game with the full clock; an answer key while playing selects its option for player 1, making player 1 the active player and scheduling the reveal; every other key changes nothing; no key changes the question, the revealed answer, the result flag or the scheduled advances |
| QuizShowScreen.QuizShow.FireReveal | components/QuizShowScreen.tsx:1227-1229 | a scheduled reveal fires with what it captured and leaves the queue |
| QuizShowScreen.QuizShow.FireAdvance | components/QuizShowScreen.tsx:1196-1210 | if the question its reveal saw was not the last, the screen moves one question on, clears the answers and plays with 15 seconds; otherwise it shows the result |
| QuizShowScreen.QuizShow.PlayAgain | components/QuizShowScreen.tsx:1260-1268 | back to the first question and the intro with 15 seconds and a total score of zero; scheduled timers stay |
| QuizShowScreen.QuizShow.Winner | components/QuizShowScreen.tsx:1270 | the winner has the highest score, and there is one exactly when there are players |
| QuizShowScreen.DoubleSelection | components/QuizShowScreen.tsx:1214-1230 | two selections of the right option pay the only player the bonus twice and schedule two question changes |
| VersusScreen.NormalisedVerdict | components/VersusScreen.tsx:46-58 | a submission is judged right exactly when the trimmed input is the word ignoring case; lower-casing or trimming the input first changes neither the answer sent nor the verdict |
| VersusScreen.Screen.constructor | components/VersusScreen.tsx:24-26 | empty inputs, no result shown, no timer, nothing sent |
| VersusScreen.Screen.Type | components/VersusScreen.tsx:116-121 | only the typing player's input changes, and not while the result shows |
| VersusScreen.Screen.Submit | components/VersusScreen.tsx:46-58 | blank input, or any input while the result shows, sends nothing; otherwise the trimmed lower-case input goes to the controller; the input is kept |
| VersusScreen.Screen.WinnerChanged | components/VersusScreen.tsx:36-44 | a winner shows the result and sets the two-second timer in place of any earlier one; no winner only clears the timer |
| VersusScreen.Screen.FireNext | components/VersusScreen.tsx:39-41 | the timer fires once and calls for the next level once |
| VersusScreen.Screen.LevelChanged | components/VersusScreen.tsx:30-34 | a new level clears both inputs and hides the result |
| VersusScreen.OneNextPerRound | components/VersusScreen.tsx:36-58 | announcing the winner twice and then submitting calls for the next level exactly once and sends nothing |
| RoomTable.RoomIdChar | firebase.ts:75 | every character of the alphabet is a capital or a digit from 2 to 9, never 0, O, 1 or I |
| RoomTable.RoomIdCharIsListed | firebase.ts:75 | the alphabet has 32 characters and the k-th one is listed at position k |
| RoomTable.GenerateRoomId | firebase.ts:74-81 | a room id is six characters, the i-th being the alphabet character of the i-th draw |
| RoomTable.RoomIdsAreUnambiguous | firebase.ts:74-81 | every character of a generated id is in the alphabet, and none is 0, O, 1 or I |
| RoomTable.JoinRefusal | firebase.ts:128-140 | a join succeeds if and only if the room exists, has no guest id and still waits, and it then returns the new player's id |
| RoomTable.JoinLeaveRoundTrip | firebase.ts:144-157 | a guest joining and then leaving a waiting room without a guest gives back the same room, and while the guest is in the room does not wait |
| RoomTable.NewRoomTakesOneGuest | firebase.ts:94-140 | a new room takes its first guest, refuses a second while that guest stays, and takes one again after the guest leaves |
| RoomTable.WaitingOfSpec | firebase.ts:289-295 | the lobby collects exactly the stored rooms that are waiting |
| RoomTable.WaitingOfAppend | firebase.ts:289-295 | collecting over two runs of keys collects over each in turn, so rooms come in key order, one entry per key |
| RoomTable.WaitingOfOne | firebase.ts:290-294 | a single key contributes its room exactly when the room is waiting |
| RoomTable.Insert | firebase.ts:298 | inserting a room adds exactly one entry |
| RoomTable.InsertPermutes | firebase.ts:298 | inserting a room adds that room and keeps the others |
| RoomTable.InsertBelow | firebase.ts:298 | inserting a room no newer than a bound keeps every room no newer than it |
| RoomTable.InsertSorts | firebase.ts:298 | inserting a room into a newest-first list keeps it newest first |
| RoomTable.SortNewest | firebase.ts:298 | sorting keeps the number of rooms |
| RoomTable.SortNewestSpec | firebase.ts:298 | the lobby order is newest first and is a permutation of the waiting rooms |
| RoomTable.Rooms.constructor | firebase.ts:278-284 | the table starts empty |
| RoomTable.Rooms.Create | firebase.ts:89-121 | a new waiting room, with only its host on full health, is stored under a freshly drawn six-character id, overwriting any room under that id |
| RoomTable.Rooms.Join | firebase.ts:124-164 | a refused join changes nothing; an accepted one stores the guest's id, name and record and makes the room ready |
| RoomTable.Rooms.StartGame | firebase.ts:185-192 | the room plays with its question and start time; an absent room is left alone |
| RoomTable.Rooms.SubmitAnswer | firebase.ts:195-208 | only the host's or only the guest's answer and activity time change |
| RoomTable.Rooms.UpdateStats | firebase.ts:211-225 | only the host's or only the guest's score, health and activity time change |
| RoomTable.Rooms.NextQuestion | firebase.ts:228-240 | the level index and question are set and both answers cleared |
| RoomTable.Rooms.EndGame | firebase.ts:243-252 | the room is finished with its winner |
| RoomTable.Rooms.Delete | firebase.ts:255-258 | exactly that room is removed |
| RoomTable.Rooms.Leave | firebase.ts:261-275 | the host leaving removes the room; the guest leaving removes the guest and the room waits again |
| RoomTable.Rooms.ActiveRooms | firebase.ts:278-301 | the loop's list is the newest-first sort of the waiting rooms collected in key order, so it is newest first, holds exactly the stored rooms that are waiting, and holds each as often as the collection does |
| AiQuiz.DropJsonFences | services/aiQuizGenerator.ts:89 | the first replacement never lengthens the text |
| AiQuiz.DropFences | services/aiQuizGenerator.ts:89 | the second replacement never lengthens the text |
| AiQuiz.FenceAt | services/aiQuizGenerator.ts:88 | a text opens with a fence exactly when its first three characters are backticks |
| AiQuiz.NoFenceNotContained | services/aiQuizGenerator.ts:88-89 | a text without three backticks in a row does not contain the fence |
| AiQuiz.DropFencesHead | services/aiQuizGenerator.ts:89 | removing fences from a text that does not open with one keeps its first character |
| AiQuiz.NoFenceAfterBacktick | services/aiQuizGenerator.ts:89 | after a lone backtick, what the removal keeps does not start with two more backticks |
| AiQuiz.NoFenceCons | services/aiQuizGenerator.ts:89 | a character put before a fence-free text makes a fence only as a backtick followed by two more |
| AiQuiz.DropFencesLeavesNone | services/aiQuizGenerator.ts:89 | removing the fences leaves no fence behind, even where the removal brings backticks together |
| AiQuiz.DropPlain | services/aiQuizGenerator.ts:89 | text without backticks passes through both replacements unchanged |
| AiQuiz.JsonOpening | services/aiQuizGenerator.ts:89 | an opening json fence line is removed whole |
| AiQuiz.UnfencedOfJsonBlock | services/aiQuizGenerator.ts:87-90 | a backtick-free body fenced as a JSON code block reaches the parser as the body and the line break before the closing fence |
| AiQuiz.UnfencedHasNoFence | services/aiQuizGenerator.ts:87-90 | a response that opens with a fence after trimming reaches the parser without any fence; any other reaches it trimmed and otherwise as it is |
| AiQuiz.VowelsAscending | services/aiQuizGenerator.ts:105-109 | every listed vowel position is inside the word and the list strictly ascends |
| AiQuiz.VowelsSpec | services/aiQuizGenerator.ts:101-109 | a position is listed if and only if it holds one of a, e, i, o, u; each once, in ascending order |
| AiQuiz.VowelIndices | services/aiQuizGenerator.ts:101-109 | the loop lists exactly the vowel positions of the word |
| AiQuiz.Highlight | services/aiQuizGenerator.ts:120 | the highlighted indices are never empty: the vowel positions, or the first letter when there are none |
| AiQuiz.LowerAll | services/aiQuizGenerator.ts:116 | each distractor is lower-cased, in order |
| AiQuiz.GeneratedShape | services/aiQuizGenerator.ts:37-123 | without a key nothing is generated; a generated level has a lower-case word and distractors and exactly one rule, the chosen one, with at least one highlighted index |
| AiQuiz.Present | services/aiQuizGenerator.ts:138-140 | no more levels are kept than requests were made |
| AiQuiz.PresentSpec | services/aiQuizGenerator.ts:136-140 | a level is kept if and only if some request produced it |
| AiQuiz.GenerateMultiple | services/aiQuizGenerator.ts:133-146 | the levels are the successful results of the first `count` requests, in order, and at most `count` of them |
| ResultScreen.RatingBands | components/ResultScreen.tsx:11-17 | with levels played: perfect if and only if the score is at least 90 percent of ten per level, excellent if and only if it is from 70 up to 90 percent, and a good job if and only if it is below 70 percent |
| ResultScreen.RatingMonotone | components/ResultScreen.tsx:14-17 | a higher score never earns a lower rating |
| ResultScreen.ShownTexts | components/ResultScreen.tsx:13-16 | with levels played, the trophy and "Perfect!" show if and only if the score is at least 90 percent, the flame and "Excellent!" if and only if it is from 70 up to 90 percent, and the star and "Good Job!" if and only if it is below 70 percent |
| ResultScreen.RatingEdges | components/ResultScreen.tsx:11-17 | a full score is perfect and zero is a good job; with no levels any positive score is perfect and zero a good job |

## Left out

- Case mapping covers the ASCII letters only; `toLowerCase` and `toUpperCase` on other letters are not modelled. White space for `trim` is the full ECMAScript white-space and line-terminator set. A string's length counts code points rather than UTF-16 units.
- Timer durations (100 ms, 200 ms, 500 ms, 1 s, 1.5 s, 2 s, 3 s) are not modelled. A timer is an explicit step the caller fires, so no model talks about elapsed wall-clock time.
- `Math.random` is an explicit draw sequence, or a given permutation. The `sort(() => Math.random() - 0.5)` shuffles become an arbitrary permutation, not the skewed distribution they really produce, since probability is outside the model.
- `Date.now()` is a parameter.
- Sounds, speech output, confetti, animations, colours, focus shortcuts and canvas particles have no effect on game state and are not modelled.
- Motion in Falling Letters and Word Shooter is not modelled, because it uses floating-point positions and a hit radius. The hit test is an abstract predicate, and a letter falling off the screen is an explicit event.
- Effects that re-run because a callback changed identity between renders are not modelled; only the events that change the game are.
- ListeningGame.Listening.AutoPlay: reads the playing flag at call time, while the source's auto-play timer captures an older value. `speechSynthesis.cancel` is an external call and is left out.
- QuizShowScreen.QuizShow: the answering flag and active-player highlight are presentation only and are not modelled. The render that would index past the last question is excluded by `Shown`.
- QuizShowScreen.QuizShow.constructor: requires at most four players, because the source's colour lookup fails for a fifth.
- The time stamp on scramble selections is not modelled; it only keys the animation.
- The quiz screen's phonics highlight after a win (`showPhonics`, set by an 800 ms timer), its sentence read-out and its 500 ms shake are presentation only and are not modelled.
- WordShooterGame.GenerateBalloons: requires the letter draws to yield at least five letters the word lacks, and so does WordShooterGame.Decoys. The source draws again until it finds a missing letter, so a word that uses all 26 letters makes its decoy loop run forever; only a code comment mentions this.
- WordSnakeGame.WordSnake.constructor: requires that the cell draws hold enough distinct cells for the word and its decoys. The source draws again until it finds them, so on the 10 x 10 grid a word of more than 92 letters makes its placement loop run forever.
- Word Snake has no self-collision check in the source, so the model has none. Removing the eaten letter by object identity is modelled as removing the cell with that value.
- A code comment says a wrong letter shrinks the snake, but the code keeps its length; the model follows the code.
- The Firebase SDK, the network, `onDisconnect` and the real-time subscription (`subscribeToRoom`) are not modelled. The table is a map updated in place.
- RoomTable.Rooms.Join: the read-then-update race between two guests is not modelled; each call is atomic.
- RoomTable.Rooms: a Firebase `update` on a path that does not exist creates it with just the fields written, but the model leaves the table unchanged instead, because it keeps only whole rooms. So the model drops these partial records:
  - the guest leaving after the host has deleted the room recreates it as a bare `{status: 'waiting'}` record, which the lobby would then list and a join would accept;
  - `startOnlineGame`, `endOnlineGame` and `nextQuestion` on a deleted room create a record with only those fields;
  - `submitAnswer` and `updatePlayerStats` for a missing guest, and `nextQuestion` on a room without a guest, create a partial guest record.
- RoomTable.SortNewestSpec: takes the order of the database keys as a parameter and does not state that the sort is stable.
- `generatePlayerId` is a parameter.
- The AI quiz service's `fetch` call, image URL generation and console output are external and not modelled. `JSON.parse` is a parameter, and the random rule and colour are parameters.
- The editor's image generation (`handleGenerateImage`, `utils/imageGenerator.ts`) calls an external service and is not modelled.
- ResultScreen.RatingOf: compares the percentage exactly, by cross-multiplying, where the source uses floating-point division.
- Stored levels are read through `localStorage` and `JSON.parse`; both are opaque parameters.
- `peerConnection.ts` is peer-to-peer transport used by no modelled rule, and is not part of this model.
- Screens that only display state or forward clicks have no rules of their own and are not modelled. These are the intro, the mode selector, the lobby, the online waiting room, the letter block, the game header and the versus result screen.
- Mismatches between the props one component passes and another component expects are not modelled. Each component is modelled on its own props.
