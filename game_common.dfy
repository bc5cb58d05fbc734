/**
 * Values the demos take from GameCommon.h. That header is not part of this
 * model, so the values are parameters of the models that use them.
 */
module GameCommon {

  datatype Common = Common(
    screenSizeX: real,     // SCREEN_SIZE_X
    screenSizeY: real,     // SCREEN_SIZE_Y
    screenCenterX: real,   // SCREEN_CENTER_X
    screenCenterY: real,   // SCREEN_CENTER_Y
    playerSpeed: real)     // PLAYER_SPEED
}
