/**
 * `PaynetEasyException` and the other throwables that reach the plugin's
 * catch blocks. The plugin's own exception is an immutable value: its context
 * is fixed by the constructor and only read back by `getContext`.
 */
module Exceptions {
  import opened Php

  /** Throwables of the host platform and of PHP itself that the plugin meets. */
  datatype HostKind =
    | PaymentException   // waPaymentException
    | PlatformException  // waException and its subclasses, e.g. database errors
    | PlainException     // \Exception
    | TypeError          // \TypeError: an \Error, not an \Exception

  datatype Exc =
    | PaynetEasyException(message: string, context: map<string, Value>, code: int, previous: Option<Exc>)
    | HostThrowable(kind: HostKind, message: string, code: int, previous: Option<Exc>)

  /** How a plugin operation ends: with a value, or by throwing. */
  datatype Outcome<+T> = Returned(value: T) | Threw(exc: Exc)

  /**
   * `new PaynetEasyException($message, $context = [], $code = 0, $previous = null)`:
   * the context is kept, message, code and previous go to the base exception.
   */
  function NewPaynetEasyException(
    message: string,
    context: map<string, Value> := map[],
    code: int := 0,
    previous: Option<Exc> := None
  ): (e: Exc)
    ensures HasGetContext(e) && GetContext(e) == context
    ensures GetMessage(e) == message && GetCode(e) == code && GetPrevious(e) == previous
  {
    PaynetEasyException(message, context, code, previous)
  }

  /** `method_exists($e, 'getContext')`: only the plugin's own exception has it. */
  predicate HasGetContext(e: Exc) {
    e.PaynetEasyException?
  }

  /** `getContext()`: the array given to the constructor. */
  function GetContext(e: Exc): map<string, Value>
    requires HasGetContext(e)
  {
    e.context
  }

  function GetMessage(e: Exc): string {
    e.message
  }

  function GetCode(e: Exc): int {
    e.code
  }

  function GetPrevious(e: Exc): Option<Exc> {
    e.previous
  }

  /**
   * `catch (\Exception | waException | waPaymentException | PaynetEasyException $e)`:
   * every throwable here except a `TypeError`, which is an `\Error`.
   */
  predicate IsCaught(e: Exc) {
    !(e.HostThrowable? && e.kind == TypeError)
  }

  /** Omitting the optional arguments gives an empty context, code 0 and no previous throwable. */
  lemma ConstructorDefaults(message: string)
    ensures GetContext(NewPaynetEasyException(message)) == map[]
    ensures GetCode(NewPaynetEasyException(message)) == 0
    ensures GetPrevious(NewPaynetEasyException(message)) == None
    ensures GetMessage(NewPaynetEasyException(message)) == message
  {
  }

  /**
   * The context never changes after construction: two exceptions built with the
   * same context report the same context whatever else differs, and an
   * exception's context determines what `getContext` returns.
   */
  lemma ContextFixedAtConstruction(
    m1: string, m2: string, context: map<string, Value>,
    c1: int, c2: int, p1: Option<Exc>, p2: Option<Exc>)
    ensures GetContext(NewPaynetEasyException(m1, context, c1, p1))
         == GetContext(NewPaynetEasyException(m2, context, c2, p2))
  {
  }
}
