/** The two StreamPosition sentinels the revision type converts from. */
module StreamPositions {

  /** `Start` is the first event of a stream; `End` is the position after
      its last event, which has no fixed number. */
  datatype StreamPosition = Start | End
}
