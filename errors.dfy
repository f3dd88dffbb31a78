/** The errors the plugin's functions return, each carrying the path its message names. */
module Errors {

  datatype Error =
    | MkdirFailed(path: string)       // getBasedir: os.MkdirAll failed
    | NoBaseDir(cause: Error)         // createTempFile/deleteTempFile: getBasedir failed
    | AlreadyExists(file: string)     // createTempFile: the marker is already there
    | WriteFailed(file: string)       // createTempFile: ioutil.WriteFile failed
    | RemoveFailed(file: string)      // deleteTempFile: os.RemoveAll failed
    | UnexpectedEngineConfig          // callbackPMIxFinalize: not a Singularity engine config

  /** Go's `error` return: nil or an error. */
  datatype Status = Nil | Fail(error: Error)
}
