/**
 * The process-wide "re-check every command" signal (WPF's
 * `CommandManager.RequerySuggested`), made an explicit object that is handed
 * to every command that subscribes to it.
 */
module Requery {
  import opened Handlers

  class RequeryChannel {
    /** The invocation list of the signal. */
    var handlers: seq<Handler>

    constructor ()
      ensures handlers == []
    {
      handlers := [];
    }

    /** `RequerySuggested += h` */
    method Add(h: Handler)
      modifies this
      ensures handlers == old(handlers) + [h]
    {
      handlers := handlers + [h];
    }

    /** `RequerySuggested -= h` */
    method Remove(h: Handler)
      modifies this
      ensures handlers == RemoveLast(old(handlers), h)
    {
      handlers := RemoveLast(handlers, h);
    }

    /**
     * The host firing the signal: every registered handler is invoked once,
     * in registration order, whatever any command's permission is.
     */
    method Trigger() returns (invoked: seq<Handler>)
      ensures invoked == handlers
    {
      invoked := handlers;
    }
  }
}
