/** `TokenHandler` (Sources/scrap-client-api/TokenHandler.swift): one bearer
    token kept in the Keychain as a generic password under a fixed account.
    The Keychain is modelled as its generic-password items by account; the
    answers the OS gives to SecItemAdd and SecItemCopyMatching are parameters,
    so the failure paths can be reasoned about. */
module TokenStore {
  import opened Wrappers
  import opened Utf8
  import opened Models

  /** The account every operation addresses. */
  const TokenKey: string := "AuthorizationToken"

  /** OSStatus values. */
  const NoErr: int := 0
  const ErrSecItemNotFound: int := -25300

  /** Generic-password items, by account. */
  type Keychain = map<string, seq<byte>>

  /** The slot the handler owns. */
  function Slot(keychain: Keychain): Option<seq<byte>> {
    if TokenKey in keychain then Some(keychain[TokenKey]) else None
  }

  /** What `loadToken` returns for a Keychain state, where `readStatus` is the
      status the OS reports when the item exists (a missing item reports
      errSecItemNotFound). Every failure is the same `silent`. */
  function LoadOutcome(keychain: Keychain, readStatus: int): (r: Result<Token, ApiError>)
    ensures r.Failure? ==> r.error == Silent
    ensures r.Success? <==> (readStatus == NoErr && TokenKey in keychain && Utf8.Decode(keychain[TokenKey]).Some?)
    ensures r.Success? ==> Utf8.Encode(r.value.value) == keychain[TokenKey]
  {
    var status := if TokenKey in keychain then readStatus else ErrSecItemNotFound;
    if status != NoErr then Failure(Silent)
    else
      match Utf8.Decode(keychain[TokenKey])
      case None => Failure(Silent)
      case Some(tokenAsString) =>
        Utf8.EncodeDecode(keychain[TokenKey]);
        Success(Token(tokenAsString))
  }

  /** The Keychain after `saveToken`: the slot is deleted, then holds the
      token's UTF-8 octets exactly when the add succeeded. */
  function AfterSave(keychain: Keychain, token: Token, addStatus: int): (k: Keychain)
    ensures Slot(k) == if addStatus == NoErr then Some(Utf8.Encode(token.value)) else None
    ensures forall a :: a != TokenKey ==> (a in k <==> a in keychain)
    ensures forall a :: a != TokenKey && a in keychain ==> k[a] == keychain[a]
  {
    var deleted := keychain - {TokenKey};
    if addStatus == NoErr then deleted[TokenKey := Utf8.Encode(token.value)] else deleted
  }

  /** The Keychain after `clearToken`: the slot is empty, nothing else moves. */
  function AfterClear(keychain: Keychain): (k: Keychain)
    ensures Slot(k) == None
    ensures forall a :: a != TokenKey ==> (a in k <==> a in keychain)
    ensures forall a :: a != TokenKey && a in keychain ==> k[a] == keychain[a]
  {
    keychain - {TokenKey}
  }

  /** Loading after a save gives back the saved token exactly when both the
      add and the read succeed, and `silent` otherwise, whatever was stored
      before. */
  lemma LoadAfterSave(keychain: Keychain, token: Token, addStatus: int, readStatus: int)
    ensures LoadOutcome(AfterSave(keychain, token, addStatus), readStatus)
         == if addStatus == NoErr && readStatus == NoErr then Success(token) else Failure(Silent)
  {
    if addStatus == NoErr && readStatus == NoErr {
      Utf8.DecodeEncode(token.value);
    }
  }

  /** Save replaces: after saving A and then B, a load yields B or nothing,
      never A. */
  lemma SaveReplaces(keychain: Keychain, a: Token, b: Token, addA: int, addB: int, readStatus: int)
    ensures var r := LoadOutcome(AfterSave(AfterSave(keychain, a, addA), b, addB), readStatus);
            r == Success(b) || r == Failure(Silent)
  {
    LoadAfterSave(AfterSave(keychain, a, addA), b, addB, readStatus);
  }

  /** Save, clear, load fails. */
  lemma LoadAfterClear(keychain: Keychain, readStatus: int)
    ensures LoadOutcome(AfterClear(keychain), readStatus) == Failure(Silent)
  {
  }

  /** Clearing twice is clearing once. */
  lemma ClearIdempotent(keychain: Keychain)
    ensures AfterClear(AfterClear(keychain)) == AfterClear(keychain)
  {
  }

  class TokenHandler {
    /** The Keychain the handler reads and writes; every `TokenHandler()` in
        the source reaches the same one. */
    var keychain: Keychain

    constructor(keychain: Keychain)
      ensures this.keychain == keychain
    {
      this.keychain := keychain;
    }

    /** `saveToken`: encode, delete, add. A Dafny string, like a Swift
        String, always has a UTF-8 encoding, so the `parse` failure never
        arises. */
    method SaveToken(token: Token, addStatus: int) returns (r: Result<Token, ApiError>)
      modifies this
      ensures keychain == AfterSave(old(keychain), token, addStatus)
      ensures r == if addStatus == NoErr then Success(token) else Failure(Silent)
      ensures r != Failure(Parse)
    {
      var tokenData := Utf8.Encode(token.value);
      // SecItemDelete
      keychain := keychain - {TokenKey};
      // SecItemAdd into the now free slot: the OS's answer decides
      var status := addStatus;
      if status == NoErr {
        keychain := keychain[TokenKey := tokenData];
      }
      r := if status == NoErr then Success(token) else Failure(Silent);
    }

    /** `loadToken`: SecItemCopyMatching, then UTF-8 decoding. */
    method LoadToken(readStatus: int) returns (r: Result<Token, ApiError>)
      ensures r == LoadOutcome(keychain, readStatus)
      ensures r.Success? <==> Slot(keychain).Some? && readStatus == NoErr && Utf8.Decode(Slot(keychain).value).Some?
      ensures r.Success? ==> Slot(keychain) == Some(Utf8.Encode(r.value.value))
      ensures r.Failure? ==> r.error == Silent
    {
      var dataTypeRef: Option<seq<byte>> := None;
      var status := ErrSecItemNotFound;
      if TokenKey in keychain {
        status := readStatus;
        if status == NoErr {
          dataTypeRef := Some(keychain[TokenKey]);
        }
      }
      if status != NoErr || dataTypeRef.None? {
        return Failure(Silent);
      }
      var tokenAsString := Utf8.Decode(dataTypeRef.value);
      if tokenAsString.None? {
        return Failure(Silent);
      }
      return Success(Token(tokenAsString.value));
    }

    /** `clearToken`: SecItemDelete on the slot; reports nothing. */
    method ClearToken()
      modifies this
      ensures keychain == AfterClear(old(keychain))
    {
      keychain := keychain - {TokenKey};
    }

    /** `tokenValue`: the loaded token, or nil. */
    method TokenValue(readStatus: int) returns (t: Option<Token>)
      ensures t == LoadOutcome(keychain, readStatus).ToOption()
      ensures t.Some? ==> Slot(keychain) == Some(Utf8.Encode(t.value.value))
    {
      var loaded := LoadToken(readStatus);
      if loaded.Success? {
        t := Some(loaded.value);
      } else {
        t := None;
      }
    }
  }

  /** A saved token is loaded back unchanged, whatever the Keychain held
      (TokenTests.testCanSaveAndLoadToken). */
  method CanSaveAndLoadToken(keychain: Keychain, token: Token) returns (saved: Result<Token, ApiError>, loaded: Result<Token, ApiError>)
    ensures saved == Success(token) && loaded == Success(token)
  {
    var handler := new TokenHandler(keychain);
    saved := handler.SaveToken(token, NoErr);
    loaded := handler.LoadToken(NoErr);
    LoadAfterSave(keychain, token, NoErr, NoErr);
  }

  /** After save and clear nothing loads (TokenTests.testCanDeleteToken). */
  method CanDeleteToken(keychain: Keychain, token: Token, addStatus: int, readStatus: int) returns (loaded: Result<Token, ApiError>)
    ensures loaded.Failure?
  {
    var handler := new TokenHandler(keychain);
    var _ := handler.SaveToken(token, addStatus);
    handler.ClearToken();
    loaded := handler.LoadToken(readStatus);
  }
}
