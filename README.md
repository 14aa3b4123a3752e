# Tetrimino shape catalog

This project models the shape catalog of a falling-block puzzle game written
in Rust (`src/tetrimino.rs`). The catalog has seven piece kinds: I, L, J, O,
S, Z and T. Each kind's generator builds a `Tetrimino` record. The record holds
the kind's rotation states, a spawn position `x = 4`, `y = 0`, and the index
`current_state = 0` of the state it shows. Every state is a 4x4 grid of cell
values. A 0 cell holds no block. A non-zero cell is a block, and its value is
the kind's colour tag (I=1, L=2, J=3, O=4, S=5, Z=6, T=7).

The comment at `src/tetrimino.rs:1-4` says rotation is meant to step through
the stored states instead of turning a matrix. The source itself has no code
that does this stepping. So the model proves the facts such stepping would
rely on:

- every state is a 4x4 frame with exactly four blocks, all in the kind's
  colour (that the four blocks are connected is not proved);
- each kind has 1, 2 or 4 states, so the spawn index 0 is always valid;
- tags are non-zero and distinct, so a stored cell value names its kind;
- no kind lists the same state twice;
- each state is the clockwise quarter turn of the state before it, and the
  first state follows the last. "Quarter turn" means the matrix rotation of
  the whole 4x4 frame, followed by a move inside the frame.

Files:

- `frames.dfy`, module `Frames`: the 4x4 frame and its block count. It also
  holds the reference matrix rotation (`Rotate`), the move inside the frame
  (`Moved`), and "same shape" (`SameShape`: one frame is the other moved, with
  no block lost). General lemmas pin down where a quarter turn sends each
  cell and show that two quarter turns make a half turn. They also show that a
  quarter turn keeps the block count and the colour, and that four quarter
  turns give back the original frame.
- `tetrimino.dfy`, module `Tetriminos`: the piece kinds, tags, the seven
  literal state tables, the `Tetrimino` record and its constructor `New`, and
  the lemmas about the tables.

Each Rust generator type with its own `new()` becomes one value of
`datatype Kind`. A `match` on the kind selects the table (`States`) and builds
the record (`New`). Each literal table is kept as its own function
(`IStates` ... `TStates`), copied value for value from the source.

## Model

| member | source | states |
|---|---|---|
| Tetriminos.Tag | src/tetrimino.rs:56-59 | A kind's colour tag is between 1 and 7, so it is never the "no block" value 0 |
| Tetriminos.KindOfTag | src/tetrimino.rs:56-59 | Decoding a cell value gives a kind exactly when the value is 1..7, and the kind it gives has that value as its tag |
| Tetriminos.TagsIdentifyKinds | src/tetrimino.rs:56-59 | Two kinds have the same tag only when they are the same kind, and decoding a kind's tag gives back that kind |
| Tetriminos.CellIdentifiesKind | src/tetrimino.rs:33-34 | Every non-zero cell in a kind's states decodes to that kind |
| Tetriminos.IStates | src/tetrimino.rs:35-44 | I has 2 states, each a 4x4 frame with exactly four blocks, all of value 1 |
| Tetriminos.LStates | src/tetrimino.rs:60-80 | L has 4 states, each a 4x4 frame with exactly four blocks, all of value 2 |
| Tetriminos.JStates | src/tetrimino.rs:91-111 | J has 4 states, each a 4x4 frame with exactly four blocks, all of value 3 |
| Tetriminos.OStates | src/tetrimino.rs:122-126 | O has 1 state, a 4x4 frame with exactly four blocks, all of value 4 |
| Tetriminos.SStates | src/tetrimino.rs:137-147 | S has 2 states, each a 4x4 frame with exactly four blocks, all of value 5 |
| Tetriminos.ZStates | src/tetrimino.rs:158-168 | Z has 2 states, each a 4x4 frame with exactly four blocks, all of value 6 |
| Tetriminos.TStates | src/tetrimino.rs:179-199 | T has 4 states, each a 4x4 frame with exactly four blocks, all of value 7 |
| Tetriminos.States | src/tetrimino.rs:30-205 | Every kind's table is non-empty (O: 1, I/S/Z: 2, L/J/T: 4), and each of its states is a 4x4 frame with exactly four blocks, all in that kind's colour |
| Tetriminos.New | src/tetrimino.rs:5-10 | A new piece holds its kind's table and spawns at x = 4, y = 0, state 0. State 0 is a valid index, and the state shown at spawn has exactly four blocks, all in the kind's colour |
| Tetriminos.Next | src/tetrimino.rs:1-4 | The stepping order the comment describes: the index after i among n states is (i + 1) mod n. It stays inside the table and wraps from the last state back to 0 |
| Tetriminos.IRotations | src/tetrimino.rs:35-44 | Each I state is the clockwise quarter turn of the previous state, moved inside the frame (first after last) |
| Tetriminos.LRotations | src/tetrimino.rs:60-80 | The same for the four L states |
| Tetriminos.JRotations | src/tetrimino.rs:91-111 | The same for the four J states |
| Tetriminos.ORotations | src/tetrimino.rs:122-126 | The single O state turned a quarter is the same state moved inside the frame |
| Tetriminos.SRotations | src/tetrimino.rs:137-147 | The same for the two S states |
| Tetriminos.ZRotations | src/tetrimino.rs:158-168 | The same for the two Z states |
| Tetriminos.TRotations | src/tetrimino.rs:179-199 | The same for the four T states |
| Tetriminos.StatesFollowRotation | src/tetrimino.rs:1-4 | For every kind and state, stepping to the next stored state (wrapping past the last) gives the matrix rotation of the current one, up to a move inside the frame |
| Tetriminos.IDistinct | src/tetrimino.rs:35-44 | The two I states differ |
| Tetriminos.LDistinct | src/tetrimino.rs:60-80 | The four L states differ pairwise |
| Tetriminos.JDistinct | src/tetrimino.rs:91-111 | The four J states differ pairwise |
| Tetriminos.SDistinct | src/tetrimino.rs:137-147 | The two S states differ |
| Tetriminos.ZDistinct | src/tetrimino.rs:158-168 | The two Z states differ |
| Tetriminos.TDistinct | src/tetrimino.rs:179-199 | The four T states differ pairwise |
| Tetriminos.StatesDistinct | src/tetrimino.rs:35-199 | Within every kind, no rotation state is listed twice |
| Frames.Rotate | src/tetrimino.rs:1-2 | The matrix rotation that the stored states replace: a clockwise quarter turn of a 4x4 frame is again a 4x4 frame |
| Frames.RotateCell | src/tetrimino.rs:1-2 | The quarter turn is clockwise: cell (i, j) of the turned frame is cell (3 - j, i) of the original |
| Frames.HalfTurn | src/tetrimino.rs:1-2 | Two quarter turns send every cell (i, j) to the opposite corner (3 - i, 3 - j). This rules out a transpose or a reflection, which undo themselves when applied twice |
| Frames.RotateKeepsFourBlocks | src/tetrimino.rs:1-2 | A quarter turn of a frame with four blocks of one colour again has four blocks of that colour |
| Frames.RotateFourTimes | src/tetrimino.rs:1-2 | Four quarter turns give back the original frame |

## Left out

- `src/main.rs`: SDL2 initialisation, the window and canvas, the event loop and frame pacing. This is I/O through a foreign library, so nothing in it is modelled.
- The `TetriminoGenerator` trait and its seven unit structs are replaced by `datatype Kind` and a `match`. Each generator's `new()` is `New(k)` for the matching `k`, so the behaviour is the same.
- Machine integer widths are not modelled. `x` and `y` (`isize`) and `current_state` (`u8`) are `int`, and cell values (`u8`) are `int`. The only values the source stores are 0..7 in cells, 4 and 0 in the position, and 0 in the index. All of them fit those types.
- Colours: a tag is only an identity here. How the renderer draws a tag is not modelled.
- The source has no board, collision test, move, rotate or wall-kick operation, line clearing, scoring or random piece choice. None of these is modelled. `Rotate`, `Moved`, `SameShape`, `Next` and `RotationCycle` are reference definitions used only to check the stored tables. They are not an operation of the game.
- `FourBlocks` checks only that a frame has four blocks of one colour. It does not check that they are orthogonally connected, so the model does not prove that each stored state is a true tetromino.
- `StatesDistinct` proves that no kind stores the same frame twice, cell for cell. It does not prove that two states of one kind differ after one is moved inside the frame.
