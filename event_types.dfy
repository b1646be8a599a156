/** The closed set of event kinds and `EventType.valueOf`. */
module EventTypes {
  import opened JavaLang

  datatype EventType =
      // user actions
    | PAGE_VIEW | SEARCH | CLICK
      // e-commerce
    | ADD_TO_CART | REMOVE_FROM_CART | VIEW_ITEM | VIEW_CART | INITIATE_CHECKOUT
    | ADD_PAYMENT_INFO | PURCHASE | ADD_TO_WISHLIST
      // user account
    | SIGN_UP | LOGIN | LOGOUT | PASSWORD_RESET
      // engagement
    | RATE | REVIEW | SHARE | SUBSCRIBE
      // system
    | ERROR | SESSION_START | SESSION_END

  /** `name()`. */
  function Name(t: EventType): string {
    match t
    case PAGE_VIEW => "PAGE_VIEW"
    case SEARCH => "SEARCH"
    case CLICK => "CLICK"
    case ADD_TO_CART => "ADD_TO_CART"
    case REMOVE_FROM_CART => "REMOVE_FROM_CART"
    case VIEW_ITEM => "VIEW_ITEM"
    case VIEW_CART => "VIEW_CART"
    case INITIATE_CHECKOUT => "INITIATE_CHECKOUT"
    case ADD_PAYMENT_INFO => "ADD_PAYMENT_INFO"
    case PURCHASE => "PURCHASE"
    case ADD_TO_WISHLIST => "ADD_TO_WISHLIST"
    case SIGN_UP => "SIGN_UP"
    case LOGIN => "LOGIN"
    case LOGOUT => "LOGOUT"
    case PASSWORD_RESET => "PASSWORD_RESET"
    case RATE => "RATE"
    case REVIEW => "REVIEW"
    case SHARE => "SHARE"
    case SUBSCRIBE => "SUBSCRIBE"
    case ERROR => "ERROR"
    case SESSION_START => "SESSION_START"
    case SESSION_END => "SESSION_END"
  }

  /**
   * `EventType.valueOf(s)`: the constant whose name is exactly `s`; `None`
   * is the IllegalArgumentException it throws otherwise.
   */
  function ValueOf(s: string): (r: Option<EventType>)
    ensures r.Some? ==> Name(r.value) == s
    ensures r.None? ==> forall t :: Name(t) != s
  {
    if s == "PAGE_VIEW" then Some(PAGE_VIEW)
    else if s == "SEARCH" then Some(SEARCH)
    else if s == "CLICK" then Some(CLICK)
    else if s == "ADD_TO_CART" then Some(ADD_TO_CART)
    else if s == "REMOVE_FROM_CART" then Some(REMOVE_FROM_CART)
    else if s == "VIEW_ITEM" then Some(VIEW_ITEM)
    else if s == "VIEW_CART" then Some(VIEW_CART)
    else if s == "INITIATE_CHECKOUT" then Some(INITIATE_CHECKOUT)
    else if s == "ADD_PAYMENT_INFO" then Some(ADD_PAYMENT_INFO)
    else if s == "PURCHASE" then Some(PURCHASE)
    else if s == "ADD_TO_WISHLIST" then Some(ADD_TO_WISHLIST)
    else if s == "SIGN_UP" then Some(SIGN_UP)
    else if s == "LOGIN" then Some(LOGIN)
    else if s == "LOGOUT" then Some(LOGOUT)
    else if s == "PASSWORD_RESET" then Some(PASSWORD_RESET)
    else if s == "RATE" then Some(RATE)
    else if s == "REVIEW" then Some(REVIEW)
    else if s == "SHARE" then Some(SHARE)
    else if s == "SUBSCRIBE" then Some(SUBSCRIBE)
    else if s == "ERROR" then Some(ERROR)
    else if s == "SESSION_START" then Some(SESSION_START)
    else if s == "SESSION_END" then Some(SESSION_END)
    else None
  }

  /** The message of the IllegalArgumentException of a failed `valueOf`. */
  function NoEnumConstant(s: string): string {
    "No enum constant com.example.kafkademo.enums.EventType." + s
  }

  /** `valueOf` finds `t` from exactly one string, its name. */
  lemma ValueOfName(s: string, t: EventType)
    ensures ValueOf(s) == Some(t) <==> s == Name(t)
  {
    if s == Name(t) {
      ValueOfOwnName(t);
    }
  }

  /** `valueOf(t.name())` is `t`. */
  lemma ValueOfOwnName(t: EventType)
    ensures ValueOf(Name(t)) == Some(t)
  {
    match t
    case PAGE_VIEW | SEARCH | CLICK =>
      UserActionValueOf(t);
    case ADD_TO_CART | REMOVE_FROM_CART | VIEW_ITEM | VIEW_CART | INITIATE_CHECKOUT | ADD_PAYMENT_INFO | PURCHASE | ADD_TO_WISHLIST =>
      CommerceValueOf(t);
    case SIGN_UP | LOGIN | LOGOUT | PASSWORD_RESET =>
      AccountValueOf(t);
    case RATE | REVIEW | SHARE | SUBSCRIBE =>
      EngagementValueOf(t);
    case ERROR | SESSION_START | SESSION_END =>
      SystemValueOf(t);
  }

  lemma UserActionValueOf(t: EventType)
    requires t.PAGE_VIEW? || t.SEARCH? || t.CLICK?
    ensures ValueOf(Name(t)) == Some(t)
  {
  }

  lemma CommerceValueOf(t: EventType)
    requires t.ADD_TO_CART? || t.REMOVE_FROM_CART? || t.VIEW_ITEM? || t.VIEW_CART? || t.INITIATE_CHECKOUT? || t.ADD_PAYMENT_INFO? || t.PURCHASE? || t.ADD_TO_WISHLIST?
    ensures ValueOf(Name(t)) == Some(t)
  {
  }

  lemma AccountValueOf(t: EventType)
    requires t.SIGN_UP? || t.LOGIN? || t.LOGOUT? || t.PASSWORD_RESET?
    ensures ValueOf(Name(t)) == Some(t)
  {
  }

  lemma EngagementValueOf(t: EventType)
    requires t.RATE? || t.REVIEW? || t.SHARE? || t.SUBSCRIBE?
    ensures ValueOf(Name(t)) == Some(t)
  {
  }

  lemma SystemValueOf(t: EventType)
    requires t.ERROR? || t.SESSION_START? || t.SESSION_END?
    ensures ValueOf(Name(t)) == Some(t)
  {
  }

  /** A name written only with upper-case ASCII letters and underscores. */
  predicate UpperName(s: string) {
    forall i :: 0 <= i < |s| ==> 'A' <= s[i] <= 'Z' || s[i] == '_'
  }

  lemma NamesUpper(t: EventType)
    ensures UpperName(Name(t))
  {
    match t
    case PAGE_VIEW | SEARCH | CLICK =>
      UserActionNamesUpper(t);
    case ADD_TO_CART | REMOVE_FROM_CART | VIEW_ITEM | VIEW_CART | INITIATE_CHECKOUT | ADD_PAYMENT_INFO | PURCHASE | ADD_TO_WISHLIST =>
      CommerceNamesUpper(t);
    case SIGN_UP | LOGIN | LOGOUT | PASSWORD_RESET =>
      AccountNamesUpper(t);
    case RATE | REVIEW | SHARE | SUBSCRIBE =>
      EngagementNamesUpper(t);
    case ERROR | SESSION_START | SESSION_END =>
      SystemNamesUpper(t);
  }

  lemma UserActionNamesUpper(t: EventType)
    requires t.PAGE_VIEW? || t.SEARCH? || t.CLICK?
    ensures UpperName(Name(t))
  {
  }

  lemma CommerceNamesUpper(t: EventType)
    requires t.ADD_TO_CART? || t.REMOVE_FROM_CART? || t.VIEW_ITEM? || t.VIEW_CART? || t.INITIATE_CHECKOUT? || t.ADD_PAYMENT_INFO? || t.PURCHASE? || t.ADD_TO_WISHLIST?
    ensures UpperName(Name(t))
  {
  }

  lemma AccountNamesUpper(t: EventType)
    requires t.SIGN_UP? || t.LOGIN? || t.LOGOUT? || t.PASSWORD_RESET?
    ensures UpperName(Name(t))
  {
  }

  lemma EngagementNamesUpper(t: EventType)
    requires t.RATE? || t.REVIEW? || t.SHARE? || t.SUBSCRIBE?
    ensures UpperName(Name(t))
  {
  }

  lemma SystemNamesUpper(t: EventType)
    requires t.ERROR? || t.SESSION_START? || t.SESSION_END?
    ensures UpperName(Name(t))
  {
  }

  /**
   * The controllers' lookup, `EventType.valueOf(s.toUpperCase())`: it finds
   * `t` exactly when `s` upper-cases to t's name ...
   */
  function Lookup(s: string): (r: Option<EventType>)
    ensures r.Some? <==> exists t :: ToUpperCase(s) == Name(t)
    ensures r.Some? ==> ToUpperCase(s) == Name(r.value)
  {
    ValueOf(ToUpperCase(s))
  }

  /** ... so that in particular the lower-case name finds the kind. */
  lemma LookupIgnoresCase(t: EventType)
    ensures Lookup(Name(t)) == Some(t)
    ensures Lookup(ToLowerCase(Name(t))) == Some(t)
  {
    var n := Name(t);
    NamesUpper(t);
    UpperNameIsUpper(n);
    LowerNameIsUpper(n);
    ValueOfOwnName(t);
  }

  lemma UpperNameIsUpper(s: string)
    requires UpperName(s)
    ensures ToUpperCase(s) == s
  {
  }

  lemma LowerNameIsUpper(s: string)
    requires UpperName(s)
    ensures ToUpperCase(ToLowerCase(s)) == s
  {
  }
}
