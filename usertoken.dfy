/** Activation tokens of usertoken.py: a role, a value and an expiry instant.
    Instants are whole seconds; the current time is a parameter. */
module UserTokens {
  import opened Roles
  import opened Utils

  const SecondsPerDay: int := 86400

  /** `cfg.ACTIVATION_TOKEN_LENGTH`. */
  const ActivationTokenLength: nat := 8

  datatype Token = Token(role: Role, value: string, validUntil: int)

  /** `Token.is_valid`: strictly before the expiry instant. */
  predicate IsValid(t: Token, now: int) {
    now < t.validUntil
  }

  /** `Token(role, valid_for, value)` created at `now`: `__post_init__` sets
      the expiry `valid_for` days after creation. */
  function Make(role: Role, validFor: int, value: string, now: int): (t: Token)
    ensures t.role == role && t.value == value
    ensures forall at :: IsValid(t, at) <==> at - now < validFor * SecondsPerDay
  {
    Token(role, value, now + validFor * SecondsPerDay)
  }

  /** A token is already invalid at exactly its expiry instant, and valid at
      its creation instant iff it was given a positive number of days. */
  lemma ValidityWindow(role: Role, validFor: int, value: string, now: int)
    ensures !IsValid(Make(role, validFor, value, now), Make(role, validFor, value, now).validUntil)
    ensures IsValid(Make(role, validFor, value, now), now) <==> validFor > 0
  {
    var t := Make(role, validFor, value, now);
    assert IsValid(t, now) <==> 0 < validFor * SecondsPerDay;
  }

  /** The class `Token` itself: the class-level `owner_token_created` flag and
      the default `value`, which Python evaluates once, when the class body
      runs (`value: str = randomstr(cfg.ACTIVATION_TOKEN_LENGTH)`). */
  class TokenClass {
    var ownerTokenCreated: bool
    const defaultValue: string

    constructor(pick: nat -> nat)
      ensures !ownerTokenCreated
      ensures defaultValue == RandomStr(ActivationTokenLength, pick)
      ensures |defaultValue| == ActivationTokenLength
      ensures forall i :: 0 <= i < |defaultValue| ==> IsUpperOrDigit(defaultValue[i])
    {
      ownerTokenCreated := false;
      defaultValue := RandomStr(ActivationTokenLength, pick);
    }

    /** `Token(role, valid_for)` without an explicit value: the value is the
        class default, whatever the role, validity or creation time. */
    function MakeDefault(role: Role, validFor: int, now: int): (t: Token)
      ensures t == Make(role, validFor, defaultValue, now)
      ensures t.value == defaultValue
    {
      Make(role, validFor, defaultValue, now)
    }

    /** `Token.owner_token()`: an OWNER token valid for one day carrying the
        configured owner value, on the first call only. */
    method OwnerToken(ownerActivationToken: string, now: int) returns (t: Option<Token>)
      modifies this`ownerTokenCreated
      ensures ownerTokenCreated
      ensures old(ownerTokenCreated) ==> t == None
      ensures !old(ownerTokenCreated) ==> t == Some(Make(Owner, 1, ownerActivationToken, now))
    {
      if !ownerTokenCreated {
        ownerTokenCreated := true;
        t := Some(Make(Owner, 1, ownerActivationToken, now));
      } else {
        t := None;
      }
    }
  }

  /** Within one process only the first `owner_token()` call yields a token. */
  method OwnerTokenOnlyOnce(pick: nat -> nat, ownerActivationToken: string, now1: int, now2: int)
    returns (first: Option<Token>, second: Option<Token>)
    ensures first.Some? && first.value.role == Owner && first.value.value == ownerActivationToken
    ensures IsValid(first.value, now1) && !IsValid(first.value, now1 + SecondsPerDay)
    ensures second == None
  {
    var cls := new TokenClass(pick);
    first := cls.OwnerToken(ownerActivationToken, now1);
    second := cls.OwnerToken(ownerActivationToken, now2);
  }

  /** As written, two tokens built without an explicit value share the class
      default value, so storing them in a map keyed by value (as bot.py:147
      does) keeps only the second: the first token's role is gone. */
  lemma SharedDefaultOverwrites(cls: TokenClass, tokens: map<string, Token>,
                                r1: Role, d1: int, now1: int, r2: Role, d2: int, now2: int)
    ensures var t1 := cls.MakeDefault(r1, d1, now1);
            var t2 := cls.MakeDefault(r2, d2, now2);
            && t1.value == t2.value
            && tokens[t1.value := t1][t2.value := t2] == tokens[t2.value := t2]
            && tokens[t1.value := t1][t2.value := t2][t1.value].role == r2
  {
  }
}
