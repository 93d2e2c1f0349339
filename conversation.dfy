/**
 The per-user game state the bot keeps (`context.user_data`), and the
 handlers' effects on it: a new game (`start`), a press of a board button
 (`process_keyboard`), the decision who has won after the player's move
 (`decide_end`), a whole turn (`game` with `get_winner_or_continue`), and
 the reset at the end of a game (`end`).
 */
module Conversation {
  import opened Board
  import opened Callback
  import opened WinCheck
  import opened Opponent

  /** The conversation states `CONTINUE_GAME, FINISH_GAME = range(2)`, and
      the value of `ConversationHandler.END`, which closes the conversation. */
  const CONTINUE_GAME: int := 0
  const FINISH_GAME: int := 1
  const END: int := -1

  /** The `who` that `decide_end` hands to `game_over`: "player", "ai" or
      "happy" (a draw); `Undecided` when the game goes on. */
  datatype Verdict = Player | Ai | Happy | Undecided

  /** `context.user_data`: the board of the user's current game, stored
      under "keyboard_state". */
  class UserData {
    var keyboardState: array2<Cell>

    predicate Valid()
      reads this
    {
      keyboardState.Length0 == 3 && keyboardState.Length1 == 3
    }

    /** The stored board as a value. */
    function State(): Grid
      reads this, keyboardState
      requires Valid()
    {
      Snapshot(keyboardState)
    }

    /** The board part of `start`: a new game on a fresh default board. */
    constructor Start()
      ensures Valid() && fresh(keyboardState)
      ensures State() == DefaultState() && !Won(State())
    {
      var board := GetDefaultState();
      keyboardState := board;
      DefaultNotWon();
    }

    /** `start` on a conversation that already has a board (`/start` is also
        the fallback, so it can arrive in the middle of a game): store a
        fresh default board and answer CONTINUE_GAME. */
    method Restart() returns (code: int)
      modifies this
      ensures Valid() && fresh(keyboardState)
      ensures State() == DefaultState() && !Won(State())
      ensures code == CONTINUE_GAME
    {
      keyboardState := GetDefaultState();
      code := CONTINUE_GAME;
      DefaultNotWon();
    }

    /** `end`: store a fresh default board so that a new game can start, and
        close the conversation. */
    method End() returns (code: int)
      modifies this
      ensures Valid() && fresh(keyboardState)
      ensures State() == DefaultState() && !Won(State())
      ensures code == END
    {
      keyboardState := GetDefaultState();
      code := END;
      DefaultNotWon();
    }

    /** The board part of `process_keyboard` for a press whose data one of the
        game handlers accepted. The stored board is copied; an occupied cell
        (anything but a free one) leaves the stored board as it was and
        answers FINISH_GAME; a free cell gets a cross in the copy, the copy is
        stored, and the answer is CONTINUE_GAME. The board stored before is
        never written. */
    method ProcessKeyboard(data: string) returns (code: int)
      requires Valid() && HandlerAccepts(data)
      modifies this
      ensures Valid()
      ensures Decode(data).Ok? && InRange(Decode(data).value.0, Decode(data).value.1)
      ensures var (r, c) := Decode(data).value;
              if old(State())[r][c] != Free then
                && code == FINISH_GAME
                && keyboardState == old(keyboardState)
                && State() == old(State())
              else
                && code == CONTINUE_GAME
                && fresh(keyboardState)
                && State() == Put(old(State()), r, c, Cross)
      ensures Snapshot(old(keyboardState)) == old(State())
    {
      HandlerAcceptsExactlyButtons(data);
      var keyboard := NewBoard(State());
      var (r, c) := Decode(data).value;
      if keyboard[r, c] != Free {
        return FINISH_GAME;
      }
      ghost var before := Snapshot(keyboard);
      keyboard[r, c] := Cross;
      GridExt(Snapshot(keyboard), Put(before, r, c, Cross));
      keyboardState := keyboard;
      code := CONTINUE_GAME;
    }

    /** `decide_end`, run after the player's move. The player has won if
        `won` holds now, and the AI does not move; otherwise the AI moves in
        place on the stored board, and has won if `won` holds after its
        move; if it cannot move, the game is a draw. A finished game goes
        through `game_over`, whose board effect is `end`; otherwise the game
        continues on the board with the AI's zero. (row, col) is the AI's
        cell. */
    method DecideEnd() returns (code: int, who: Verdict, ghost row: int, ghost col: int)
      requires Valid()
      modifies this, keyboardState
      ensures Valid() && !Won(State())
      ensures who == Player <==> Won(old(State()))
      ensures who == Player || who == Happy ==> Snapshot(old(keyboardState)) == old(State())
      ensures who == Happy <==> !Won(old(State())) && !HasFree(old(State()))
      ensures !Won(old(State())) && HasFree(old(State())) ==>
                && InRange(row, col)
                && old(State())[row][col] == Free
                && Snapshot(old(keyboardState)) == Put(old(State()), row, col, Zero)
                && (who == Ai <==> Won(Put(old(State()), row, col, Zero)))
      ensures who == Ai ==>
                exists l :: ValidLine(l) && OnLine(l, row, col) && Filled(Snapshot(old(keyboardState)), l, Zero)
      ensures who == Undecided <==> code == CONTINUE_GAME
      ensures who == Undecided ==> keyboardState == old(keyboardState)
      ensures who != Undecided ==> code == END && fresh(keyboardState) && State() == DefaultState()
    {
      ghost var g := State();
      if Won(State()) {
        who, row, col := Player, 0, 0;
        code := End();
        return;
      }
      var moved;
      moved, row, col := AiMove(keyboardState);
      if moved {
        if Won(State()) {
          WinningMoveCompletesOwnLine(g, row, col, Zero);
          who := Ai;
          code := End();
          return;
        }
      } else {
        who := Happy;
        code := End();
        return;
      }
      who, code := Undecided, CONTINUE_GAME;
    }

    /** The board part of `game` for a press the bot has answered: run
        `process_keyboard`; an occupied cell keeps the game where it is
        (CONTINUE_GAME); otherwise `get_winner_or_continue` runs
        `decide_end` and turns its END into FINISH_GAME. Between turns the
        stored board is never won (`Start`, `End` and `DecideEnd` leave it
        so), and then a "player" verdict means the player's cross completed
        a line of crosses through the pressed cell (r, c). */
    method Game(data: string)
      returns (state: int, who: Verdict, ghost r: int, ghost c: int, ghost row: int, ghost col: int)
      requires Valid() && HandlerAccepts(data) && !Won(State())
      modifies this
      ensures Decode(data) == Ok((r, c)) && InRange(r, c)
      ensures Valid() && !Won(State())
      ensures Snapshot(old(keyboardState)) == old(State())
      ensures old(State())[r][c] != Free ==>
                && state == CONTINUE_GAME && who == Undecided
                && keyboardState == old(keyboardState) && State() == old(State())
      ensures old(State())[r][c] == Free ==> (who == Player <==> Won(Put(old(State()), r, c, Cross)))
      ensures who == Player ==>
                exists l :: ValidLine(l) && OnLine(l, r, c) && Filled(Put(old(State()), r, c, Cross), l, Cross)
      ensures old(State())[r][c] == Free ==>
                var p := Put(old(State()), r, c, Cross);
                who == Happy <==> !Won(p) && !HasFree(p)
      ensures old(State())[r][c] == Free ==>
                var p := Put(old(State()), r, c, Cross);
                !Won(p) && HasFree(p) ==>
                  && InRange(row, col) && p[row][col] == Free
                  && (who == Ai <==> Won(Put(p, row, col, Zero)))
      ensures old(State())[r][c] == Free && who != Undecided ==> State() == DefaultState()
      ensures old(State())[r][c] == Free && who == Undecided ==>
                InRange(row, col) && State() == Put(Put(old(State()), r, c, Cross), row, col, Zero)
      ensures state == if who == Undecided then CONTINUE_GAME else FINISH_GAME
    {
      ghost var g := State();
      HandlerAcceptsExactlyButtons(data);
      r, c := Decode(data).value.0, Decode(data).value.1;
      var placed := ProcessKeyboard(data);
      if placed == FINISH_GAME {
        return CONTINUE_GAME, Undecided, r, c, 0, 0;
      }
      var code;
      code, who, row, col := DecideEnd();
      if who == Player {
        WinningMoveCompletesOwnLine(g, r, c, Cross);
      }
      state := if code == CONTINUE_GAME then CONTINUE_GAME else FINISH_GAME;
    }
  }
}
