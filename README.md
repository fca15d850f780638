# BuddyBot demos: quiz state machine and servo actuators

A Dafny model of the sequential logic of three single-board demos.

- **Touchscreen quiz** (`main.cpp`, module `QuizGame`). The game has four screens: welcome, category menu, quiz and game over. Each touch arrives as mapped screen coordinates. It is routed to the handler of the current screen, which hit-tests fixed button rectangles and updates the globals `currentState`, `selectedCategory`, `currentQuestions[5]`, `currentQuestionIndex` and `score`.
  - `Game` is the value of those globals. `WelcomeTouch`, `MenuTouch`, `QuizTouch`, `GameOverTouch` and the dispatch `Touch` say what one touch does.
  - `QuizBoard` is a class holding the globals, with the question array as an `array<Question>`. Each of its handler methods is proved to leave `Model()` equal to the matching function applied to the old `Model()`.
  - `Run` folds a sequence of touches. Its contract carries the invariant: in a quiz `0 <= score <= currentQuestionIndex < 5`, and at game over the index is 5.
- **Touch-armed one-shot actuator** (`main.c`, module `ArmedLatch`). A touch sets the flag `systemOn`. While the flag is set, a reading under 30 cm swings the servo to 90 degrees and back to 0, then clears the flag.
  - Each task's loop body is one atomic step on a `Latch`. A `Latch` is the flag plus the log of duties written to the PWM channel.
  - Class `ServoSystem` holds the global and the channel. Its step methods are proved against `TouchStep` and `ServoStep`.
  - The lemmas over event sequences prove three things. Actuations plus the final flag equal armings plus the initial flag. Nothing moves after the flag clears until a new touch. The log is whole actuations of duties 750 and 250.
- **Continuous threshold actuator** (`IOTcode.c`, module `ThresholdActuator`). Each cycle commands 90 degrees for a reading in `(0, 20]` and 0 degrees otherwise, keeping nothing between cycles.
  - `UltrasonicTask` runs the first `n` iterations on given readings. It is proved to issue one command per reading, fixed by that reading alone.

Module `CInt` gives the C integer semantics both duty formulas need. It has `int` division truncating toward zero, conversion to `uint32_t`, and the 32-bit signed range.

The distance reading and the touch level are inputs to the model. `random(0, 10)` becomes a parameter `picks` of five indices in `[0, 10)`. Floating-point readings are modelled as `real`.

Two facts about the duty formulas:

- In `IOTcode.c` the truncating `angle * 100 / 180` gives angles 0 and 1 the same duty 25, so the mapping is non-decreasing but not strictly increasing (`ThresholdActuator.DutyMonotone`, `ThresholdActuator.DutyNotStrictlyMonotone`). The `main.c` mapping is strictly increasing over `[0, 180]` (`ArmedLatch.DutyStrictlyMonotone`).
- The `main.c` formula gives 1250 at 180 degrees, above the 1023 maximum of the 10-bit channel it configures. The program only commands 90 and 0 degrees (750 and 250). `ArmedLatch.RunWritesActuations` proves every duty it writes stays within the 10-bit range.

## Model

| member | source | states |
|---|---|---|
| `CInt.Div` | IOTcode.c:36 | C division by a positive divisor truncates toward zero: the remainder has the dividend's sign and is smaller than the divisor |
| `CInt.ToUint32` | main.c:39 | storing an `int` in a `uint32_t` gives a value in `[0, 2^32)`, congruent to it modulo 2^32, unchanged when already in range |
| `QuizGame.Bank` | main.cpp:44-68 | each category's bank has ten questions, and every one of them has option 1 as its correct answer |
| `QuizGame.SelectQuestions` | main.cpp:79-84 | drawing gives exactly five questions, each an element of the selected category's bank (the `picks[i]`-th) |
| `QuizGame.Initial` | main.cpp:29-72 | power-up is the welcome screen, category Math (zero-initialised), index 0, score 0, five blank questions |
| `QuizGame.InitialInv` | main.cpp:29-72 | the power-up globals satisfy the game invariant |
| `QuizGame.WelcomeTouch` | main.cpp:145-148 | any touch on the welcome screen opens the menu, whatever the coordinates, and changes nothing else |
| `QuizGame.MenuTouch` | main.cpp:150-162 | a touch with `x` outside `[50, 270]` changes nothing; inside, it starts a quiz with index and score kept, Math for `y` in `[100, 150]`, Science for `y` in `[180, 230]`, the previous category otherwise, and five fresh questions from that category |
| `QuizGame.QuizTouch` | main.cpp:164-175 | a quiz touch advances the index by exactly one; the score rises by one exactly when the upper band is touched and the answer is 1 or the lower band and the answer is 2, else it is unchanged; the game is over once the index reaches 5; category and questions are unchanged |
| `QuizGame.GameOverTouch` | main.cpp:177-184 | a touch with `y` in `[180, 230]` clears index and score and returns to the welcome screen; any other touch changes nothing |
| `QuizGame.Touch` | main.cpp:237-240 | dispatching a touch to the current screen's handler preserves the game invariant |
| `QuizGame.Run` | main.cpp:229-244 | after any sequence of touches from a state satisfying the invariant, it still holds; in a quiz `0 <= score <= index < 5`, at game over index 5 and score at most 5 |
| `QuizGame.QuizScoresOnUpperButton` | main.cpp:164-170 | with the banks as given, a quiz touch scores exactly when it lands on the upper button |
| `QuizGame.QuizEndsAfterFiveAnswers` | main.cpp:172-174 | from any quiz state, each further touch advances the index by one; fewer than `5 - index` touches leave the game in the quiz, and exactly `5 - index` reach game over with index 5 |
| `QuizGame.RestartReturnsToMenu` | main.cpp:177-184 | at game over, Restart followed by any touch reaches the menu with index and score 0 |
| `QuizGame.QuizBoard.constructor` | main.cpp:29-72 | the globals start equal to `Initial()` and satisfy the invariant |
| `QuizGame.QuizBoard.SelectRandomQuestions` | main.cpp:79-84 | the loop fills the array in place with the questions `SelectQuestions` describes, touching nothing else |
| `QuizGame.QuizBoard.HandleWelcomeTouch` | main.cpp:145-148 | updates only `currentState`, as `WelcomeTouch` says, keeping the invariant |
| `QuizGame.QuizBoard.HandleMenuTouch` | main.cpp:150-162 | updates state, category and the question array as `MenuTouch` says, keeping the invariant |
| `QuizGame.QuizBoard.HandleQuizTouch` | main.cpp:164-175 | updates score, index and state as `QuizTouch` says, keeping the invariant |
| `QuizGame.QuizBoard.HandleGameOverTouch` | main.cpp:177-184 | updates score, index and state as `GameOverTouch` says, keeping the invariant |
| `QuizGame.QuizBoard.HandleTouch` | main.cpp:237-240 | the dispatch updates the globals as `Touch` says, keeping the invariant |
| `QuizGame.QuizBoard.GetCategoryName` | main.cpp:188-190 | the name is "Math Quiz" exactly when the category is Math, and "Science Quiz" for Science |
| `ArmedLatch.Duty` | main.c:37-42 | the duty for 0, 90 and 180 degrees is 250, 750 and 1250, lies in `[250, 1250]` over `[0, 180]` and always fits a `uint32_t` |
| `ArmedLatch.DutyStrictlyMonotone` | main.c:39 | over `[0, 180]` a larger angle always gives a larger duty |
| `ArmedLatch.Actuation` | main.c:72-74 | one actuation writes the duties 750 then 250 |
| `ArmedLatch.Initial` | main.c:14 | at start-up the latch is clear and nothing has been commanded |
| `ArmedLatch.TouchStep` | main.c:47-56 | touch level 1 sets the flag; any other level changes nothing; the touch task never clears the flag or commands the servo |
| `ArmedLatch.ServoStep` | main.c:62-79 | with the flag clear nothing happens whatever the reading; with it set, a reading in `(0, 30)` writes 750 then 250 and clears it; any other reading, the `-1` sentinel and 0 included, changes nothing |
| `ArmedLatch.InvalidReadingKeepsArmed` | main.c:33-77 | the `-1` sentinel and a reading of 0 never actuate: the step leaves the flag and the duty log as they were |
| `ArmedLatch.RunConservesArmings` | main.c:45-80 | over any interleaving of loop bodies, the log grows by two duties per actuation, and actuations plus the final flag equal armings plus the initial flag |
| `ArmedLatch.AtMostOneActuationPerArming` | main.c:64-77 | a run never actuates more often than it arms, counting an initially set flag as one arming |
| `ArmedLatch.NoActuationWithoutTouch` | main.c:45-80 | once the flag is clear, no sequence of events without a level-1 touch changes anything |
| `ArmedLatch.RunWritesActuations` | main.c:69-75 | every run keeps the log a whole number of (750, 250) actuations, so every duty written is at most 1023 |
| `ArmedLatch.ServoSystem.constructor` | main.c:14 | the global flag starts false and the channel log empty |
| `ArmedLatch.ServoSystem.MoveServo` | main.c:37-42 | appends exactly the duty for the angle to the channel log |
| `ArmedLatch.ServoSystem.TouchTaskStep` | main.c:47-56 | changes only `systemOn`, as `TouchStep` says |
| `ArmedLatch.ServoSystem.ServoTaskStep` | main.c:62-79 | changes the flag and the channel log as `ServoStep` says |
| `ArmedLatch.ServoSystem.RunTasks` | main.c:45-80 | running the loop bodies one at a time on a sequence of events leaves the state that `Run` describes |
| `ThresholdActuator.Duty` | IOTcode.c:35-39 | the duty for 0, 90 and 180 degrees is 25, 75 and 125 and lies in `[25, 125]` over `[0, 180]` |
| `ThresholdActuator.DutyMonotone` | IOTcode.c:36 | the duty never decreases as the angle grows, over every angle the C expression is defined for |
| `ThresholdActuator.DutyNotStrictlyMonotone` | IOTcode.c:36 | angles 0 and 1 share the duty 25 |
| `ThresholdActuator.Gate` | IOTcode.c:47-52 | the commanded angle is 90 exactly when `0 < distance <= 20` and 0 otherwise, so every reading at or below 0 rests |
| `ThresholdActuator.Command` | IOTcode.c:43-52 | a cycle writes duty 75 exactly when the reading is in `(0, 20]`, and 25 exactly when it is not |
| `ThresholdActuator.InvalidReadingRests` | IOTcode.c:31-51 | the `-1` sentinel and a reading of 0 command the rest position; a reading of exactly 20 commands 90 degrees |
| `ThresholdActuator.UltrasonicTask` | IOTcode.c:42-55 | each iteration issues exactly one command, the one its own reading determines, so equal readings give equal commands |

## Left out

- The distance measurement `get_distance` (main.c:17-34, IOTcode.c:17-32). It is a busy-wait on GPIO levels with float scaling. The reading is an input; only its `-1` sentinel convention is used.
- GPIO, LEDC configuration, task creation and the `app_main` functions (main.c:83-115, IOTcode.c:58-90). These are driver and scheduler calls. `ledc_set_duty` is modelled as appending to a duty log.
- Delays: `vTaskDelay`, the 5-second hold between the two servo commands, and the quiz's 300 ms debounce. They are timing only.
- Concurrency: the two `main.c` tasks share `systemOn` without synchronisation. The model runs whole loop bodies one at a time, so it does not capture a touch that lands between the 90 and 0 degree commands.
- Logging (`printf`, `ESP_LOGI`) and the TFT drawing functions (main.cpp:87-142). These are output only.
- The touchscreen driver and the `mapX`/`mapY` scaling (main.cpp:23-24, 75-76, 232-235). Handlers take mapped coordinates.
- Wi-Fi bring-up, the web server and `handleRoot` (main.cpp:192-226). This is network glue. Only `getCategoryName`, which it uses, is modelled.
- `random(0, 10)` itself. Its five results are the `picks` parameter.
- QuizGame.QuizBoard.HandleWelcomeTouch: requires the welcome screen, the only screen the dispatch in `loop` calls it on. The C++ function has no such check; nothing in the program calls it elsewhere.
- QuizGame.QuizBoard.HandleMenuTouch: requires the menu screen, for the same reason.
- QuizGame.QuizBoard.HandleQuizTouch: requires the quiz screen, for the same reason; that screen's invariant also keeps the array index below 5.
- QuizGame.QuizBoard.HandleGameOverTouch: requires the game-over screen, for the same reason.
- ArmedLatch.Duty: requires `angle * 1000` to fit a 32-bit `int`, since signed overflow is undefined in C. Only 0 and 90 are ever passed.
- ThresholdActuator.Duty: requires `angle * 100` to fit a 32-bit `int`, for the same reason.
