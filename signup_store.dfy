/** The shared open flag of the signup dialog (`useSignupStore`). */
module SignupStore {

  class Store {
    var isOpen: bool

    constructor ()
      ensures !isOpen
    {
      isOpen := false;
    }

    /** `open()`: idempotent, since the result does not depend on the previous value. */
    method Open()
      modifies this
      ensures isOpen
    {
      isOpen := true;
    }

    /** `close()`. */
    method Close()
      modifies this
      ensures !isOpen
    {
      isOpen := false;
    }

    /** `setOpen(b)`. */
    method SetOpen(b: bool)
      modifies this
      ensures isOpen == b
    {
      isOpen := b;
    }
  }
}
