/** The exceptions the modelled code raises, one constructor per cause. */
module Errors {

  datatype Error =
    /** ValueError: neither the environment variable nor `<env>.<key>` in the configuration file is set. */
    | MissingSetting(variable: string, env: string, key: string)
    /** AttributeError: a configuration entry read with `.get` is not a mapping. */
    | NotAMapping(key: string)
    /** ValueError: a description was asked for but neither inline text nor a file was given. */
    | NoDescriptionSource
    /** ValueError: a file extension other than `.md`, `.txt` or none (lower-cased). */
    | UnsupportedFormat(ext: string)
    /** OSError: the path cannot be opened for reading. */
    | CannotOpen(path: string)
    /** ValueError: an HTTP method other than GET, POST, PUT and DELETE (upper-cased). */
    | UnsupportedMethod(httpMethod: string)
    /** JIRAError: the tracker rejected a request, with its status and the detail it gave. */
    | RemoteError(status: int, detail: string)
    /** AttributeError: the configuration file does not hold a mapping (an empty file loads as None). */
    | ConfigNotAMapping
    /** The tracker has no issue with this key. */
    | NotFound(key: string)
    /** AttributeError: an attribute of a fetched issue is null where the code reads through it. */
    | NullAttribute(name: string)
    /** AttributeError: an attribute the code reads directly is absent from a fetched issue. */
    | MissingAttribute(name: string)
    /** HTTPError raised by `raise_for_status` for a 4xx or 5xx response. */
    | HttpError(status: int, text: string)
    /** The command line exits because no environment name is given or configured. */
    | EnvRequired
}
