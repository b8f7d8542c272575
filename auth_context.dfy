/** The authentication context: one flag saying whether the login/register
    modal is open, and the functions that open and close it. */
module AuthContext {

  /** The four names the provider puts into the context value. */
  const ProvidedNames: set<string> := {"isAuthModalOpen", "openAuthModal", "closeAuthModal", "handleLoginSuccess"}

  /** The members every object literal inherits from `Object.prototype`. */
  const ObjectPrototypeNames: set<string> :=
    {"constructor", "hasOwnProperty", "isPrototypeOf", "propertyIsEnumerable", "toLocaleString",
     "toString", "valueOf", "__proto__", "__defineGetter__", "__defineSetter__",
     "__lookupGetter__", "__lookupSetter__"}

  /** A signed-in user, as consumers of the context expect to find it. */
  datatype User = User(name: string)

  /** What a consumer gets when it reads a name from `useAuth()`. */
  datatype Member = ModalFlag(open: bool) | Function(name: string) | Inherited(name: string) | Undefined

  class Provider {
    var isAuthModalOpen: bool

    constructor ()
      ensures !isAuthModalOpen
    {
      isAuthModalOpen := false;
    }

    /** The argument callers pass (a message, or a callback) is ignored. */
    method OpenAuthModal(ignored: string)
      modifies this
      ensures isAuthModalOpen
    {
      isAuthModalOpen := true;
    }

    method CloseAuthModal()
      modifies this
      ensures !isAuthModalOpen
    {
      isAuthModalOpen := false;
    }

    /** Only logs; no state changes, hence no modifies clause. */
    method HandleLoginSuccess()
      ensures isAuthModalOpen == old(isAuthModalOpen)
    {
    }

    /** Reading `name` from the provided value, a plain object literal: its
        own four members, then what it inherits from `Object.prototype`;
        there is no `user` and no `logout`. */
    function Lookup(name: string): (m: Member)
      reads this
      ensures m.Undefined? <==> name !in ProvidedNames && name !in ObjectPrototypeNames
      ensures name == "isAuthModalOpen" ==> m == ModalFlag(isAuthModalOpen)
      ensures name in ProvidedNames && name != "isAuthModalOpen" ==> m == Function(name)
      ensures name in ObjectPrototypeNames ==> m == Inherited(name)
    {
      if name == "isAuthModalOpen" then ModalFlag(isAuthModalOpen)
      else if name in ProvidedNames then Function(name)
      else if name in ObjectPrototypeNames then Inherited(name)
      else Undefined
    }
  }

  /** Consumers that destructure `user` or `logout` read undefined. */
  lemma NoUserInContext(p: Provider)
    ensures p.Lookup("user") == Undefined && p.Lookup("logout") == Undefined
  {
  }
}
