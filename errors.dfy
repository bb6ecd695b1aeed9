/** The exceptions the modelled code can raise, as values.  The first two are
    the adapter's own exception classes (vllm_judge/core/errors.py) and the
    last two the client's (vllm_judge/client.py); the others are the Python
    built-in exceptions that surface from dictionary lookups, `str.format`,
    `int()` and `re` on inputs the code does not guard. */
module Errors {
  import opened Wrappers

  datatype Error =
    | TemplateNotFound(templateId: string)  // TemplateNotFoundError, HTTP 404
    | PromptTemplateError(detail: string)   // PromptTemplateError, HTTP 400
    | KeyError(key: string)                 // missing dict key or missing format field
    | TypeError(detail: string)             // value of the wrong type
    | AttributeError(detail: string)        // method missing on the value's type
    | IndexError(detail: string)            // e.g. `match.group(1)` without a group
    | ValueError(detail: string)            // bad format string, bad client config
    | PatternError(pattern: string)         // `re.error` for a caller-supplied pattern
    | ClientError(detail: string)           // VLLMJudgeError, raised by the client
    | Timeout(seconds: int)                 // TimeoutError while waiting for a result

  type Outcome<T> = Result<T, Error>
}
