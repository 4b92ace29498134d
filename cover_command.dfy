/** The cover actions whose sequences the safety lemmas of both cover models range over. */
module CoverCommand {

  /** `open_cover`, `close_cover` and `stop_cover` */
  datatype Command = Open | Close | Stop
}
