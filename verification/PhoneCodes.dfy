/** SMS codes: a token "hash:expiry:attempts" that is read, judged and rewritten by every guess. */
module PhoneCodes {
  import opened Wrappers
  import opened GoStrings
  import opened Entities
  import opened TableOps
  import opened MemStore
  import opened Accounts

  const PHONE_TOKEN := "PhoneToken"
  const CHANGE_PHONE_TOKEN := "ChangePhoneToken"
  const COLON: char := ':'

  datatype PhoneError = InvalidToken | StoreFailure | NoSMSSender | NoPhoneNumber

  /** A text on its way to a number. */
  datatype Message = Message(to: string, code: string)

  function PhoneCodeValue(hash: string, exp: int, attempts: int): string {
    hash + [COLON] + (FormatInt(exp) + [COLON] + FormatInt(attempts))
  }

  // ---------- one guess ----------

  /** What a guess does to the stored text. */
  datatype Effect = Kept | Removed(success: bool) | Rewritten(value: string)

  /** 64-bit addition of one. */
  function Increment(n: int): int {
    if n == MAX_INT64 then MIN_INT64 else n + 1
  }

  /** `strconv.Atoi` with its error ignored: zero, or the clamped value of a number out of range. */
  function LenientInt(s: string): int {
    match ParseInt(s)
    case Ok(n) => n
    case Err(Syntax) => 0
    case Err(Range(n)) => n
  }

  /** The guess is compared with the stored hash: the text is well-formed and has not expired. */
  predicate Compared(stored: string, now: int) {
    && stored != "" && |Split(stored, COLON)| >= 2
    && var exp := ParseInt(Split(stored, COLON)[1]); exp.Ok? && now <= exp.value * SECOND
  }

  function Judge(max: int, stored: string, candidate: string, now: int): Effect {
    var parts := Split(stored, COLON);
    if stored == "" || |parts| < 2 then Kept
    else if !Compared(stored, now) then Removed(false)
    else if parts[0] == candidate then Removed(true)
    else
      var attempts := if |parts| >= 3 then LenientInt(parts[2]) else 0;
      if Increment(attempts) >= max then Removed(false)
      else Rewritten(PhoneCodeValue(parts[0], ParseInt(parts[1]).value, Increment(attempts)))
  }

  function Applied(tokens: map<string, string>, key: string, e: Effect): map<string, string> {
    match e
    case Kept => tokens
    case Removed(_) => tokens - {key}
    case Rewritten(value) => tokens[key := value]
  }

  /** `hash` is the text of a code's hash. */
  class PhoneCodeManager {
    const store: Store
    const maxAttempts: int
    const ttl: int
    const hash: string -> string

    constructor (store: Store, maxAttempts: int, ttl: int, hash: string -> string)
      ensures this.store == store && this.maxAttempts == maxAttempts && this.ttl == ttl && this.hash == hash
    {
      this.store, this.maxAttempts, this.ttl, this.hash := store, maxAttempts, ttl, hash;
    }

    method ConsumePhoneCode(userID: string, name: string, candidateHash: string, now: int) returns (ok: bool)
      modifies store`db
      ensures var key, before := TokenKey(userID, INTERNAL_PROVIDER, name), old(store.db);
              var e := Judge(maxAttempts, TokenValue(before.tokens, key), candidateHash, now);
              ok == (e == Removed(true)) && store.db == before.(tokens := Applied(before.tokens, key, e))
    {
      var stored := store.GetToken(userID, INTERNAL_PROVIDER, name);
      if stored == "" {
        return false;
      }
      var parts := Split(stored, COLON);
      if |parts| < 2 {
        return false;
      }
      var hashPart := parts[0];
      var exp := ParseInt(parts[1]);
      if exp.Err? || now > exp.value * SECOND {
        store.RemoveToken(userID, INTERNAL_PROVIDER, name);
        return false;
      }
      if hashPart == candidateHash {
        store.RemoveToken(userID, INTERNAL_PROVIDER, name);
        return true;
      }
      var attempts := 0;
      if |parts| >= 3 {
        attempts := LenientInt(parts[2]);
      }
      if Increment(attempts) >= maxAttempts {
        store.RemoveToken(userID, INTERNAL_PROVIDER, name);
      } else {
        store.SetToken(userID, INTERNAL_PROVIDER, name, PhoneCodeValue(hashPart, exp.value, Increment(attempts)));
      }
      return false;
    }

    /** Stores a new code; `code` is the random value. */
    method GeneratePhoneToken(userID: string, code: string, now: int)
      modifies store`db
      ensures store.db == old(store.db).(tokens := old(store.db).tokens[
                TokenKey(userID, INTERNAL_PROVIDER, PHONE_TOKEN) := PhoneCodeValue(hash(code), Unix(now + ttl), 0)])
    {
      store.SetToken(userID, INTERNAL_PROVIDER, PHONE_TOKEN, PhoneCodeValue(hash(code), Unix(now + ttl), 0));
    }

    /** Generates a code for the user's number. A user without a number gets an error, and the code is
        stored all the same. `sender` says whether a sender is configured. */
    method SendPhoneToken(u: User, sender: bool, code: string, now: int) returns (r: Result<Message, PhoneError>)
      modifies store`db
      ensures !sender ==> r == Err(NoSMSSender) && store.db == old(store.db)
      ensures sender ==>
                && r == (if u.phoneNumber == "" then Err(NoPhoneNumber) else Ok(Message(u.phoneNumber, code)))
                && store.db == old(store.db).(tokens := old(store.db).tokens[
                     TokenKey(u.id, INTERNAL_PROVIDER, PHONE_TOKEN) := PhoneCodeValue(hash(code), Unix(now + ttl), 0)])
    {
      if !sender {
        return Err(NoSMSSender);
      }
      GeneratePhoneToken(u.id, code, now);
      if u.phoneNumber == "" {
        return Err(NoPhoneNumber);
      }
      return Ok(Message(u.phoneNumber, code));
    }

    method VerifyPhoneToken(userID: string, code: string, now: int) returns (ok: bool)
      modifies store`db
      ensures var key, before := TokenKey(userID, INTERNAL_PROVIDER, PHONE_TOKEN), old(store.db);
              var e := Judge(maxAttempts, TokenValue(before.tokens, key), hash(TrimSpace(code)), now);
              ok == (e == Removed(true)) && store.db == before.(tokens := Applied(before.tokens, key, e))
    {
      ok := ConsumePhoneCode(userID, PHONE_TOKEN, hash(TrimSpace(code)), now);
    }

    /** A match confirms the number and consumes the code; any other guess leaves the account alone. */
    method ConfirmPhoneNumber(account: Account, code: string, now: int, stamp: string) returns (r: Result<(),
            PhoneError>)
      modifies account, store`db
      ensures var u, key := old(account.user), TokenKey(old(account.user).id, INTERNAL_PROVIDER, PHONE_TOKEN);
              var e := Judge(maxAttempts, TokenValue(old(store.db).tokens, key), hash(TrimSpace(code)), now);
              && (r == Err(InvalidToken) <==> e != Removed(true))
              && store.db.tokens == Applied(old(store.db).tokens, key, e)
              && (r == Err(InvalidToken) ==> account.user == u && store.db.users == old(store.db).users)
              && (r == Ok(()) ==>
                    && account.user == u.(phoneNumberConfirmed := true, concurrencyStamp := stamp)
                    && store.db.users == old(store.db).users[u.id := account.user])
              && (r == Err(StoreFailure) ==> store.db.users == old(store.db).users)
    {
      var ok := VerifyPhoneToken(account.user.id, code, now);
      if !ok {
        return Err(InvalidToken);
      }
      account.user := account.user.(phoneNumberConfirmed := true);
      var saved := Save(store, account, stamp);
      return if saved then Ok(()) else Err(StoreFailure);
    }

    method GenerateChangePhoneNumberToken(userID: string, newPhone: string, code: string, now: int)
      modifies store`db
      ensures store.db == old(store.db).(tokens := old(store.db).tokens[
                TokenKey(userID, INTERNAL_PROVIDER,
                         CHANGE_PHONE_TOKEN) := PhoneCodeValue(hash(ChangeText(code, newPhone)), Unix(now + ttl), 0)])
    {
      store.SetToken(userID, INTERNAL_PROVIDER, CHANGE_PHONE_TOKEN,
                     PhoneCodeValue(hash(ChangeText(code, newPhone)), Unix(now + ttl), 0));
    }

    /** Generates a code for the new number, which must not be empty. */
    method SendChangePhoneNumberToken(u: User, newPhone: string, sender: bool, code: string, now: int)
      returns (r: Result<Message, PhoneError>)
      modifies store`db
      ensures r == if !sender then Err(NoSMSSender) else if newPhone == "" then Err(NoPhoneNumber)
          else Ok(Message(newPhone, code))
      ensures store.db == if r.Err? then old(store.db) else old(store.db).(tokens := old(store.db).tokens[
                TokenKey(u.id, INTERNAL_PROVIDER, CHANGE_PHONE_TOKEN) :=
                  PhoneCodeValue(hash(ChangeText(code, newPhone)), Unix(now + ttl), 0)])
    {
      if !sender {
        return Err(NoSMSSender);
      }
      if newPhone == "" {
        return Err(NoPhoneNumber);
      }
      GenerateChangePhoneNumberToken(u.id, newPhone, code, now);
      return Ok(Message(newPhone, code));
    }

    /** A matching code sets and confirms the number and replaces the security stamp; any
        other guess leaves the account alone. */
    method ChangePhoneNumber(account: Account, newPhone: string, code: string, now: int, securityStamp: string,
                             stamp: string)
      returns (r: Result<(), PhoneError>)
      modifies account, store`db
      ensures var u, key := old(account.user), TokenKey(old(account.user).id, INTERNAL_PROVIDER, CHANGE_PHONE_TOKEN);
              var e := Judge(maxAttempts, TokenValue(old(store.db).tokens, key),
                             hash(ChangeText(TrimSpace(code), newPhone)), now);
              && (r == Err(InvalidToken) <==> e != Removed(true))
              && store.db.tokens == Applied(old(store.db).tokens, key, e)
              && (r == Err(InvalidToken) ==> account.user == u && store.db.users == old(store.db).users)
              && (r == Ok(()) ==>
                    && account.user == u.(phoneNumber := newPhone, phoneNumberConfirmed := true,
                                          securityStamp := securityStamp, concurrencyStamp := stamp)
                    && store.db.users == old(store.db).users[u.id := account.user])
              && (r == Err(StoreFailure) ==> store.db.users == old(store.db).users)
    {
      var ok := ConsumePhoneCode(account.user.id, CHANGE_PHONE_TOKEN, hash(ChangeText(TrimSpace(code), newPhone)), now);
      if !ok {
        return Err(InvalidToken);
      }
      account.user := account.user.(phoneNumber := newPhone);
      account.user := account.user.(phoneNumberConfirmed := true);
      account.user := account.user.(securityStamp := securityStamp);
      var saved := Save(store, account, stamp);
      return if saved then Ok(()) else Err(StoreFailure);
    }
  }

  // ---------- the text and what it stands for ----------

  /** A printed token splits back into its three parts. */
  lemma PartsOfValue(hash: string, exp: int, attempts: int)
    requires COLON !in hash
    ensures Split(PhoneCodeValue(hash, exp, attempts), COLON) == [hash, FormatInt(exp), FormatInt(attempts)]
  {
    var e, a := FormatInt(exp), FormatInt(attempts);
    FormatIntAlphabet(exp, COLON);
    FormatIntAlphabet(attempts, COLON);
    SplitOfConcat(hash, e + [COLON] + a, COLON);
    SplitOfConcat(e, a, COLON);
    SplitOfAtom(a, COLON);
  }

  /** The judgement on a printed token, in terms of the values it was printed from. */
  lemma JudgeOfValue(max: int, hash: string, exp: int, attempts: int, candidate: string, now: int)
    requires COLON !in hash && MIN_INT64 <= exp <= MAX_INT64 && 0 <= attempts < MAX_INT64
    ensures var stored := PhoneCodeValue(hash, exp, attempts);
            && (Compared(stored, now) <==> now <= exp * SECOND)
            && Judge(max, stored, candidate, now) ==
               if now > exp * SECOND then Removed(false)
               else if hash == candidate then Removed(true)
               else if attempts + 1 >= max then Removed(false)
               else Rewritten(PhoneCodeValue(hash, exp, attempts + 1))
  {
    PartsOfValue(hash, exp, attempts);
    ParseOfFormat(exp);
    ParseOfFormat(attempts);
  }

  /** A text without a separator is left as it is, and one whose expiry is no number is removed. */
  lemma JudgeOfOther(max: int, hash: string, expiry: string, rest: string, candidate: string, now: int)
    requires COLON !in hash && COLON !in expiry && ParseInt(expiry).Err?
    ensures Judge(max, hash, candidate, now) == Kept
    ensures Judge(max, hash + [COLON] + (expiry + [COLON] + rest), candidate, now) == Removed(false)
  {
    SplitOfAtom(hash, COLON);
    SplitOfConcat(hash, expiry + [COLON] + rest, COLON);
    SplitOfConcat(expiry, rest, COLON);
  }

  /** A token without a number of attempts has had none. */
  lemma JudgeWithoutAttempts(max: int, hash: string, exp: int, candidate: string, now: int)
    requires COLON !in hash && MIN_INT64 <= exp <= MAX_INT64
    ensures Judge(max, hash + [COLON] + FormatInt(exp), candidate, now) ==
            Judge(max, PhoneCodeValue(hash, exp, 0), candidate, now)
  {
    TwoParts(hash, exp);
    JudgeOfValue(max, hash, exp, 0, candidate, now);
    ParseOfFormat(exp);
  }

  lemma TwoParts(hash: string, exp: int)
    requires COLON !in hash
    ensures Split(hash + [COLON] + FormatInt(exp), COLON) == [hash, FormatInt(exp)]
  {
    FormatIntAlphabet(exp, COLON);
    SplitOfConcat(hash, FormatInt(exp), COLON);
    SplitOfAtom(FormatInt(exp), COLON);
  }

  // ---------- guesses one after the other ----------

  datatype Guess = Guess(candidate: string, now: int)

  /** The stored text after a guess; a removed token reads as the empty text. */
  function Next(max: int, stored: string, g: Guess): string {
    match Judge(max, stored, g.candidate, g.now)
    case Kept => stored
    case Removed(_) => ""
    case Rewritten(value) => value
  }

  /** The store after a guess holds that text under its key, and every other token as it was. */
  lemma AppliedIsNext(max: int, tokens: map<string, string>, key: string, g: Guess, other: string)
    requires other != key
    ensures var tokens' := Applied(tokens, key, Judge(max, TokenValue(tokens, key), g.candidate, g.now));
            && TokenValue(tokens', key) == Next(max, TokenValue(tokens, key), g)
            && (other in tokens' <==> other in tokens) && TokenValue(tokens', other) == TokenValue(tokens, other)
  {
  }

  /** The stored text that the i-th guess finds. */
  function Before(max: int, stored: string, guesses: seq<Guess>, i: nat): string
    requires i <= |guesses|
  {
    if i == 0 then stored else Next(max, Before(max, stored, guesses, i - 1), guesses[i - 1])
  }

  predicate Succeeds(max: int, stored: string, guesses: seq<Guess>, i: nat)
    requires i < |guesses|
  {
    Judge(max, Before(max, stored, guesses, i), guesses[i].candidate, guesses[i].now) == Removed(true)
  }

  /** A removed token stays removed, whatever is guessed. */
  lemma NextOfRemoved(max: int, g: Guess)
    ensures Next(max, "", g) == ""
  {
  }

  /** The token is still there before the i-th guess: every earlier one was a miss before the
      expiry, and there were fewer of them than the cap. */
  predicate Live(max: int, hash: string, exp: int, guesses: seq<Guess>, i: nat)
    requires i <= |guesses|
  {
    && i < AtLeastOne(max)
    && forall j :: 0 <= j < i ==> guesses[j].candidate != hash && guesses[j].now <= exp * SECOND
  }

  /** What the i-th guess finds: the token with its misses counted, or nothing. */
  lemma {:induction false} BeforeGuess(max: int, hash: string, exp: int, guesses: seq<Guess>, i: nat)
    requires COLON !in hash && MIN_INT64 <= exp <= MAX_INT64 && max <= MAX_INT64 && i <= |guesses|
    ensures Before(max, PhoneCodeValue(hash, exp, 0), guesses, i) ==
            if Live(max, hash, exp, guesses, i) then PhoneCodeValue(hash, exp, i) else ""
  {
    if i > 0 {
      BeforeGuess(max, hash, exp, guesses, i - 1);
      var g := guesses[i - 1];
      assert Live(max, hash, exp, guesses, i) ==> Live(max, hash, exp, guesses, i - 1);
      if Live(max, hash, exp, guesses, i - 1) {
        JudgeOfValue(max, hash, exp, i - 1, g.candidate, g.now);
        assert Live(max, hash, exp, guesses, i) <==> i < max && g.candidate != hash && g.now <= exp * SECOND by {
          assert forall j :: 0 <= j < i - 1 ==> guesses[j].candidate != hash && guesses[j].now <= exp * SECOND;
        }
      } else {
        NextOfRemoved(max, g);
      }
    }
  }

  /** Exactly which guesses at an issued code succeed: the right hash, in time, after only
      misses, and fewer of them than the cap. */
  lemma SucceedsIff(max: int, hash: string, exp: int, guesses: seq<Guess>, i: nat)
    requires COLON !in hash && MIN_INT64 <= exp <= MAX_INT64 && max <= MAX_INT64 && i < |guesses|
    ensures Succeeds(max, PhoneCodeValue(hash, exp, 0), guesses, i)
            <==> && i < AtLeastOne(max) && guesses[i].candidate == hash && guesses[i].now <= exp * SECOND
                 && forall j :: 0 <= j < i ==> guesses[j].candidate != hash && guesses[j].now <= exp * SECOND
  {
    BeforeGuess(max, hash, exp, guesses, i);
    if Live(max, hash, exp, guesses, i) {
      JudgeOfValue(max, hash, exp, i, guesses[i].candidate, guesses[i].now);
    }
  }

  /** Between two issuances at most one guess succeeds. */
  lemma OneSuccess(max: int, hash: string, exp: int, guesses: seq<Guess>, i: nat, j: nat)
    requires COLON !in hash && MIN_INT64 <= exp <= MAX_INT64 && max <= MAX_INT64 && i < j < |guesses|
    ensures !(Succeeds(max, PhoneCodeValue(hash, exp, 0), guesses, i)
              && Succeeds(max, PhoneCodeValue(hash, exp, 0), guesses, j))
  {
    SucceedsIff(max, hash, exp, guesses, i);
    SucceedsIff(max, hash, exp, guesses, j);
  }

  /** Between two issuances, only guesses before the cap are ever compared with the hash. */
  lemma ComparedBound(max: int, hash: string, exp: int, guesses: seq<Guess>, i: nat)
    requires COLON !in hash && MIN_INT64 <= exp <= MAX_INT64 && max <= MAX_INT64 && i < |guesses|
    ensures Compared(Before(max, PhoneCodeValue(hash, exp, 0), guesses, i), guesses[i].now)
            <==> Live(max, hash, exp, guesses, i) && guesses[i].now <= exp * SECOND
    ensures Compared(Before(max, PhoneCodeValue(hash, exp, 0), guesses, i), guesses[i].now) ==> i < AtLeastOne(max)
  {
    BeforeGuess(max, hash, exp, guesses, i);
    if Live(max, hash, exp, guesses, i) {
      JudgeOfValue(max, hash, exp, i, guesses[i].candidate, guesses[i].now);
    }
  }

  /** After as many misses as the cap, even the right code is refused. */
  lemma RightCodeTooLate(max: int, hash: string, exp: int, guesses: seq<Guess>, i: nat)
    requires COLON !in hash && MIN_INT64 <= exp <= MAX_INT64 && max <= MAX_INT64 && AtLeastOne(max) <= i < |guesses|
    ensures !Succeeds(max, PhoneCodeValue(hash, exp, 0), guesses, i)
  {
    SucceedsIff(max, hash, exp, guesses, i);
  }

  // ---------- codes bound to a number ----------

  /** The text whose hash a change-number code is stored as. */
  function ChangeText(code: string, phone: string): string {
    code + [BAR] + phone
  }

  lemma BarInTail(a: string, b: string)
    ensures BAR in ChangeText(a, b)
  {
    assert ChangeText(a, b)[|a|] == BAR;
  }

  /** A code issued for a number without a '|' confirms that number only. */
  lemma ChangeCodeBinds(code: string, phone: string, presented: string, otherPhone: string)
    requires BAR !in code && BAR !in phone
    ensures ChangeText(presented, otherPhone) == ChangeText(code, phone) <==> presented == code && otherPhone == phone
  {
    if ChangeText(presented, otherPhone) == ChangeText(code, phone) {
      CutOfConcat(code, phone, BAR);
      if BAR !in presented {
        ConcatInjective(presented, otherPhone, code, phone, BAR);
      } else {
        var parts := Cut(presented, BAR);
        CutSplits(presented, BAR);
        var (a, b) := parts.value;
        assert ChangeText(presented, otherPhone) == a + [BAR] + ChangeText(b, otherPhone);
        CutOfConcat(a, ChangeText(b, otherPhone), BAR);
        BarInTail(b, otherPhone);
        assert false;
      }
    }
  }

  /** With an injective hash: a guess at a code issued for a number without a '|' succeeds exactly
      when it is in time, is that code, and is made for that number. */
  lemma ChangeGuessBinds(
      max: int, hash: string -> string, code: string, phone: string, exp: int, attempts: int,
      presented: string, otherPhone: string, now: int)
    requires forall x, y :: hash(x) == hash(y) ==> x == y
    requires COLON !in hash(ChangeText(code, phone)) && MIN_INT64 <= exp <= MAX_INT64 && 0 <= attempts < MAX_INT64
    requires BAR !in code && BAR !in phone
    ensures var stored := PhoneCodeValue(hash(ChangeText(code, phone)), exp, attempts);
            Judge(max, stored, hash(ChangeText(presented, otherPhone)), now) == Removed(true)
            <==> now <= exp * SECOND && presented == code && otherPhone == phone
  {
    JudgeOfValue(max, hash(ChangeText(code, phone)), exp, attempts, hash(ChangeText(presented, otherPhone)), now);
    ChangeCodeBinds(code, phone, presented, otherPhone);
  }

  /** With a '|' in the number the binding fails: the code issued for number "a|b", presented
      with "|a" appended, confirms number "b". */
  lemma ChangeCodeUnbound(code: string, a: string, b: string)
    ensures ChangeText(ChangeText(code, a), b) == ChangeText(code, ChangeText(a, b))
  {
  }
}
