/** The plugin's settings record, read-only while a tool change runs.
    Only the fields the sequencing code reads are kept; widths follow the C struct. */
module Config {

  /** Unsigned C integer widths used by the settings and the tool record. */
  type U8 = x: int | 0 <= x < 0x100
  type U16 = x: int | 0 <= x < 0x1_0000
  type U32 = x: int | 0 <= x < 0x1_0000_0000

  /** Magazine geometry, heights, speeds and the recognition zones.
      `alignment` and `direction` are C `char`s compared against 0:
      alignment 0 is the X axis, anything else Y; direction 0 is positive. */
  datatype Settings = Settings(
    alignment: int,
    direction: int,
    numberOfPockets: U8,
    pocketOffset: U16,
    pocket1X: real,
    pocket1Y: real,
    engagementFeedRate: U16,
    pickupRpm: U16,
    dropoffRpm: U16,
    zEngagement: U16,
    zSafeClearance: U16,
    startHeight: real,
    toolRecognition: bool,
    detectZone1: real,
    detectZone2: real)
}
