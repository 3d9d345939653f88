# Pong backend: game vocabulary and room key exclusion

This project models two small pieces of the backend of a two-player Pong game.

- **Game definitions** (`game_definitions.dfy`, with `prisma_client.dfy`): the game
  vocabulary shared by the backend. It has the six application game modes, their
  string values and their conversion to and from the four persisted modes of the
  database client. It also has the paddle inputs, the two players, the five power-up
  effects, the four ball states, and the integer sizes and millisecond timings.
  Converting `UnMatched` or `NotQueued` to a persisted mode reaches a branch that
  throws in the source. Here that branch returns `None`, with no payload.
- **Room service** (`room_service.dfy`): the `exclude` helper deletes each listed key
  from an object in place and returns the same object. `getRoomById` uses it to strip
  `hashedCode` from a fetched room. The object is a `Record` class whose `fields`
  map the method updates in place. Its new state is tied to the specification
  function `Excluded`, which deletes the keys one by one. The lemmas prove what that
  function means: exactly the listed keys are removed, whatever their order or
  repetitions.

`results.dfy` holds the `Option` type used for the error paths.

The ball states are numbered in declaration order: `MOVING = 0`, `SCORED = 1`,
`OFF_FIELD = 2`, `SPAWNED = 3`.

## Model

| member | source | states |
|---|---|---|
| GameDefinitions.ToPrismaGameMode | backend/volume/src/game/game.definitions.ts:13-26 | fails (no result) exactly for `UnMatched` and `NotQueued`; otherwise yields the persisted mode of the same name |
| GameDefinitions.ToGameMode | backend/volume/src/game/game.definitions.ts:28-41 | total on the four persisted modes; yields the same-named mode, never `UnMatched` or `NotQueued`, and converting the result back gives the input |
| GameDefinitions.PlayableRoundTrip | backend/volume/src/game/game.definitions.ts:13-41 | whenever `ToPrismaGameMode(m)` succeeds, `m` is playable and `ToGameMode` of the result is `m` |
| GameDefinitions.ToPrismaGameModeInjective | backend/volume/src/game/game.definitions.ts:14-22 | two modes that convert successfully to the same persisted mode are equal |
| GameDefinitions.ToPrismaGameModeSurjective | backend/volume/src/game/game.definitions.ts:13-41 | every persisted mode is the conversion of some mode, and that mode is exactly `ToGameMode` of it |
| GameDefinitions.GameModeTagInjective | backend/volume/src/game/game.definitions.ts:4-11 | the six string values (`UnMatched` spelled so) are pairwise distinct |
| GameDefinitions.PaddleInputTagInjective | backend/volume/src/game/game.definitions.ts:43-48 | the four key names of the paddle inputs are pairwise distinct |
| GameDefinitions.PlayerOfValue | backend/volume/src/game/game.definitions.ts:50-53 | a player is found by value exactly for 0 and 1, and the found player has that value |
| GameDefinitions.EffectOfValue | backend/volume/src/game/game.definitions.ts:75-81 | an effect is found by value exactly for 0 to 4, and the found effect has that value |
| GameDefinitions.BallStatusOfValue | backend/volume/src/game/game.definitions.ts:83-88 | a ball state is found by value exactly for 0 to 3, and the found state has that value |
| GameDefinitions.NumericEnumRoundTrips | backend/volume/src/game/game.definitions.ts:50-88 | every player, effect and ball state is found again from its own value, so the values are pairwise distinct |
| GameDefinitions.EffectTiming | backend/volume/src/game/game.definitions.ts:75-97 | the slow, speed and freeze effects are governed by a positive duration; the radius and smash effects, which last until the next paddle hit, by the not-time-based sentinel; none by the spawn timer |
| GameDefinitions.TimingValuesDistinct | backend/volume/src/game/game.definitions.ts:91-97 | the five timing values are pairwise distinct, and the sentinel -1 is the only negative one |
| RoomService.Delete | backend/volume/src/room/room.service.ts:16 | after deleting a key it is absent, no key is added, and every other key keeps its value |
| RoomService.ExcludedIsSetRemoval | backend/volume/src/room/room.service.ts:15-17 | deleting the keys one by one equals removing the set of listed keys at once |
| RoomService.ExcludedRemovesOnlyListedKeys | backend/volume/src/room/room.service.ts:15-17 | no listed key remains; every remaining key was present and is unlisted; every unlisted key keeps its original value |
| RoomService.ExcludedOrderIndependent | backend/volume/src/room/room.service.ts:15-17 | two key lists naming the same keys, in any order or with any repetition, give the same result |
| RoomService.ExcludedDuplicateKey | backend/volume/src/room/room.service.ts:15-17 | listing an already-listed key again changes nothing |
| RoomService.ExcludedIdempotent | backend/volume/src/room/room.service.ts:15-17 | excluding the same keys twice gives the same result as excluding them once |
| RoomService.ExcludedAbsentKeys | backend/volume/src/room/room.service.ts:15-18 | deleting only keys the object lacks, in particular an empty list, leaves the object unchanged |
| RoomService.Exclude | backend/volume/src/room/room.service.ts:11-19 | updates the object in place to `Excluded` of its old properties and returns that same object; no listed key remains and every unlisted property keeps its value |
| RoomService.GetRoomById | backend/volume/src/room/room.service.ts:68-72 | a fetched room is returned as the same object without `hashedCode`, nothing else removed; a missing room (`null`) fails |

## Left out

- The match simulation: physics, collisions, the power-up spawner, the effect ledger and scoring. None of it is in the modelled files.
- The fractional constants of `MoveSpeedPerTick` and `PowerUpModifier` are recorded as `real` constants only. No logic uses them.
- `MapSize`, `DefaultElementSize` and `BallTimings` are recorded as integer constants only. The source attaches no logic to them.
- ToPrismaGameMode: the default branches apply `new` to `error` imported from `console`, which is not a constructor. So the template string is only the argument of a call that itself fails, and what is thrown is a `TypeError`. The model keeps only the failure; the thrown object and its message are not modelled.
- The declaration of the persisted `GameMode` belongs to the generated database client, which is not part of this model. It is taken to have exactly the four members the switches name. So the default branch of `toGameMode` cannot be reached, and `ToGameMode` is total.
- GetRoomById: the database lookup `prismaRoom.Room` is not part of this model. Its result is the `fetched` parameter, and the room id is dropped.
- Exclude: every property is taken to be deletable. Properties that cannot be deleted, and the `delete` operator's boolean result, are not modelled. The rows a database client returns are plain objects.
- The rest of the room service (`createChat`, `addToChat`, `getRoomUsers`, `getRoomAdmins`, `removeChat`, `makeAdmin`, `getPublicRooms`, `removeAdmin`, `banUser`, `muteUser`). These are asynchronous calls into the database client, and two of them read the wall clock.
- The authentication controller and the frontend router. They are HTTP and UI wiring with no logic of their own.
