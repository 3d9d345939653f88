/**
 * The persisted game mode that the database client generates (imported as
 * `PrismaGameMode` in backend/volume/src/game/game.definitions.ts). Its declaration
 * is not part of this model; it is taken to be exactly the four members that the
 * two conversion switches name.
 */
module PrismaClient {

  datatype GameMode = NORMAL | FREEMOVE | POWERUP | FIESTA {

    /** The member's name as the generated client spells it. */
    function Name(): string {
      match this
      case NORMAL => "NORMAL"
      case FREEMOVE => "FREEMOVE"
      case POWERUP => "POWERUP"
      case FIESTA => "FIESTA"
    }
  }
}
