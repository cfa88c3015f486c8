/** The errors the plugin manager hands back to its callers. */
module Errors {

  datatype Error =
    | PluginNotFound               // ErrPluginNotFound: no search directory holds the binary
    | SystemError(msg: string)     // an error reported by the operating system
    | TransportError(msg: string)  // a net/rpc failure below the application layer
    | Message(text: string)        // an error built from text by errors.New or fmt.Errorf
    | WaitTimeout                  // wait.ErrWaitTimeout: the poll's deadline passed

  /** The text of the error a foreign process on the plugin's socket produces. */
  function ReuseMismatch(want: string, got: string): (text: string)
  {
    "cannot reuse plugin, want '" + want + "', got '" + got + "'"
  }

  /** `text` contains `part` at position `at`. */
  predicate OccursAt(part: string, text: string, at: nat)
  {
    at + |part| <= |text| && text[at..at + |part|] == part
  }

  /** The mismatch error names both the expected and the reported executable. */
  lemma MismatchNamesBoth(want: string, got: string)
    ensures OccursAt(want, ReuseMismatch(want, got), 27)
    ensures OccursAt(got, ReuseMismatch(want, got), 27 + |want| + 8)
  {
  }
}
