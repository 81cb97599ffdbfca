/** The status of a form with a simulated submission: `'idle' | 'loading' | 'success' | 'error'`. */
module SubmitStatus {

  datatype Status = Idle | Loading | Success | Error
}
