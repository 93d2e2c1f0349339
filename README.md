# Tic-tac-toe engine of a chat bot, in Dafny

This project models the game engine of a chat bot that plays tic-tac-toe against a
random opponent through a 3×3 inline keyboard (`src/utils.py`). The board is three
rows of three texts: FREE_SPACE ".", CROSS "✖" (the player) and ZERO "O" (the AI).

- `board.dfy` (module `Board`): cells, the board as a value (`Grid`), the
  default state, and the in-place board (`array2<Cell>`) the bot stores.
  `get_default_state` makes a fresh copy of DEFAULT_STATE.
- `callback.dfy` (module `Callback`): the callback data `f"{r}{c}"` of each button.
  It is decoded by `r, c = map(int, data)`, and the nine handler patterns admit only
  those texts.
- `wincheck.dfy` (module `WinCheck`): `won` scores each cell 1, 2 or 20 and looks
  for a column, row or diagonal summing to 3 or 6. It is proved equivalent to
  "some line is three crosses or three zeros".
- `opponent.dfy` (module `Opponent`): `ai_move`. A nested loop collects the texts of
  the free cells in row-major order. One of them is picked and decoded, and a zero
  is written there in place.
- `conversation.dfy` (module `Conversation`): the per-user state `user_data` as the
  class `UserData`. It has the board parts of `start` (`Start` for a new
  conversation, `Restart` for `/start` on an existing one), `process_keyboard`,
  `decide_end`, `game` with `get_winner_or_continue` (`Game`), and `end`.

`process_keyboard` copies the stored board. It writes the cross into the copy and
stores the copy, so the board stored before is never written (`ProcessKeyboard`
states this). `ai_move` writes into the stored board itself (`AiMove` has
`modifies fields`).

The code has no function that classifies a full board as a draw. A draw is
declared only inside `decide_end`, when the player has not won and the AI finds no
free cell. `won` returns only a boolean. Who won follows from the order of the
calls: the player if `won` holds before the AI moves, the AI if it holds only
after. The model proves this order right in three steps:
- Between turns the stored board is never won. `Start` and `End` store the default
  board, and `DecideEnd` either resets the board or leaves it not won.
- `WinCheck.WinningMoveCompletesOwnLine`: on a board nobody has won, the move that
  makes `won` true completes a line of the mover's own mark through the cell just
  played.
- `DecideEnd` applies this to the AI's zero, and `Game` applies it to the player's
  cross.

## Model

| member | source | states |
|---|---|---|
| `Board.DefaultState` | src/utils.py:29 | DEFAULT_STATE is three rows of three cells, every one of them FREE_SPACE |
| `Board.GetDefaultState` | src/utils.py:37-39 | returns a freshly allocated 3×3 board equal to DEFAULT_STATE, so games never share a board |
| `Board.NewBoard` | src/utils.py:69-70 | the copy `[list(i) for i in keyboard]` is a fresh board holding exactly the same cells |
| `Board.Put` | src/utils.py:85 | writing a mark into cell (r, c) sets that cell and leaves every other cell unchanged |
| `Callback.Encode` | src/utils.py:48 | the callback data of a button is two decimal digit characters |
| `Callback.Decode` | src/utils.py:72 | `map(int, data)` unpacked into two values succeeds iff the data is exactly two digits, and re-encoding the result gives the data back; otherwise it is a ValueError. The first non-digit among the first three characters is reported first; only if there is none, a count below two or above two is reported |
| `Callback.DecodeEncode` | src/utils.py:72 | decoding a button's data gives back that button's (row, column) |
| `Callback.EncodeInjective` | src/utils.py:165 | different cells get different texts `str(i) + str(j)` |
| `Callback.HandlerAcceptsExactlyButtons` | src/utils.py:248-250 | the nine handler patterns accept a text iff it is the data of one of the nine buttons, and each accepted text decodes to coordinates in 0..2 |
| `WinCheck.CodeSums` | src/utils.py:178 | with scores in {1, 2, 20}, a sum of 3 means three 1s and a sum of 6 means three 2s |
| `WinCheck.LineSumMeaning` | src/utils.py:176-192 | a line sums to 3 iff it is three crosses, and to 6 iff it is three zeros |
| `WinCheck.WonIffThreeInARow` | src/utils.py:174-196 | `won` holds iff some column, row or diagonal is three crosses or three zeros |
| `WinCheck.DefaultNotWon` | src/utils.py:174-196 | `won` is false on the default board |
| `WinCheck.WinningMoveCompletesOwnLine` | src/utils.py:97-115 | on a board nobody has won, a move into a free cell that makes `won` true is a cross or a zero, and completes a line of that mark through the cell just played, so the verdict that follows the call order is right |
| `Opponent.FreeCodesHas` | src/utils.py:161-165 | a cell's text is collected iff the scan has passed the cell's row and the cell is FREE_SPACE |
| `Opponent.FreeCodesSound` | src/utils.py:165-168 | every collected text decodes to a free cell in range, in a row the scan has passed |
| `Opponent.FreeCodesEmpty` | src/utils.py:166-167 | the collection is empty iff no cell is FREE_SPACE |
| `Opponent.FreeCodesAfterZero` | src/utils.py:170 | writing a zero into a free cell removes exactly one text from the collection |
| `Opponent.OnlyFreeCell` | src/utils.py:168 | with one free cell left, the only cell the random choice can pick is that cell |
| `Opponent.CollectFree` | src/utils.py:161-165 | the nested loop collects the texts of exactly the free cells, in row-major order |
| `Opponent.AiMove` | src/utils.py:152-171 | returns False iff no cell is free, and then the board is unchanged. Otherwise one collected free cell becomes ZERO, every other cell is unchanged, and the number of free cells drops by one |
| `Conversation.UserData.Start` | src/utils.py:57 | a new game stores a fresh default board, which is not won |
| `Conversation.UserData.Restart` | src/utils.py:54-64 | `/start` on a conversation that has a board, also as the fallback mid-game: stores a fresh default board, which is not won, and answers CONTINUE_GAME |
| `Conversation.UserData.End` | src/utils.py:223-230 | stores a fresh default board, which is not won, and answers ConversationHandler.END |
| `Conversation.UserData.ProcessKeyboard` | src/utils.py:67-88 | on an occupied cell: answers FINISH_GAME and the stored board is unchanged. On a free cell: stores a fresh board with a cross there and all else unchanged, and answers CONTINUE_GAME. The board stored before is never written |
| `Conversation.UserData.DecideEnd` | src/utils.py:97-115 | if `won` holds, the verdict is "player" and the AI never moves. Otherwise the AI moves. If it cannot, the verdict is "happy" (a draw). If its zero makes `won` true, the verdict is "ai", with a line of zeros through its cell. Any verdict resets the board and answers END; otherwise it answers CONTINUE_GAME with the board holding the AI's zero. Either way the stored board is then not won |
| `Conversation.UserData.Game` | src/utils.py:118-146 | on a board not won, a press of an occupied cell keeps the game going with the board unchanged. A press of a free cell puts a cross there and runs `decide_end`. The verdict is "player" iff the cross makes `won` true, and then the cross completes a line of crosses through the pressed cell. It is "happy" iff the cross does not win and fills the last free cell. Otherwise the AI's zero goes into a free cell, and the verdict is "ai" iff the zero makes `won` true. A verdict resets the board and ends in FINISH_GAME. With no verdict the board holds the cross and the zero, and the answer is CONTINUE_GAME. The board stored before is never written, and the board stays not won |

## Left out

- The messaging side is not modelled: `start`'s reply, `before_end`'s texts, message editing and deleting, and keyboard rendering (`InlineKeyboardButton`, `InlineKeyboardMarkup`). These are calls into the bot SDK. Only the board effect of each handler is modelled.
- The `"occupied cell"` message-text test in `process_keyboard` is not modelled. Both of its branches answer FINISH_GAME and leave the board alone.
- The `query.answer()` check in `game` is not modelled: `Game` is the branch for an answered press. The message deleting and sending in `get_winner_or_continue` is not modelled either; only the state it returns is. `main` and the `ConversationHandler` set-up are also not modelled; only the nine handler patterns are kept (`HandlerPatterns`). `get_fname`, `main.py` and logging are not modelled either.
- `Start`: a constructor returns no value, so `start`'s answer CONTINUE_GAME is stated by `Restart`, which runs the same board effect on an existing conversation.
- `AiMove`: the choice is modelled as an arbitrary collected cell, not a uniform random one. Probabilities are outside the model.
- `Decode`: only the ASCII digits '0'..'9' are modelled as digits. Python's `int` also accepts other Unicode decimal digits.
- `Encode`: only one-digit row and column numbers are modelled. The board only has 0..2.
- `HandlerAcceptsExactlyButtons`: it states that the patterns admit exactly the nine two-digit texts. A Python regular expression's `$` also matches before one trailing newline, which is not modelled. The bot only ever sets the nine texts as callback data.
- A board whose rows are one shared list is not modelled; the model's cells are independent. Such a board is built by `[["."] * 3] * 3`. `process_keyboard` stores un-aliased copies anyway.
- `numpy` is not modelled. Its column, row and diagonal sums are written out line by line.
