/** Values shared by the capture plugin, the PCM encoder and the audio recorder plugin:
    an Option type, bytes, and abstract handles for the objects the operating system
    and the Flutter engine hand to the plugins. */
module Common {

  datatype Option<+T> = None | Some(value: T)

  /** An unsigned byte, as appended to a `Data` or held in a `[UInt8]`. */
  newtype uint8 = x: int | 0 <= x < 256

  /** The kind of sample buffer a capture stream hands to its output (`SCStreamOutputType`). */
  datatype OutputType = Screen | Audio | Microphone

  /** A Flutter event sink registered by `onListen`; only its identity matters here. */
  datatype Sink = Sink(id: nat)

  /** A display returned by the shareable-content query. */
  datatype Display = Display(id: nat)
}
