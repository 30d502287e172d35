/**
 * The banking actions of the voice assistant: the account balance lookup,
 * the account list, card blocking and the two actions that only confirm.
 * Each action reads slots and returns the `SlotSet` events it emits.
 */
module VoiceActions {
  import opened Wrappers
  import opened Seqs
  import opened Text

  /** A slot value: text, a flag, or `None`. */
  datatype SlotValue = Text(text: string) | Flag(flag: bool) | Unset

  datatype Event = SlotSet(name: string, value: SlotValue)

  function SlotOf(v: Option<string>): SlotValue {
    match v
    case Some(s) => Text(s)
    case None => Unset
  }

  /**
   * The account type after normalisation: a missing or empty slot is kept;
   * otherwise it is lowercased, and becomes "checking" when it contains
   * "check", else "savings" when it contains "sav".
   */
  function NormaliseAccountType(accountType: Option<string>): (r: Option<string>)
    ensures r.Some? <==> accountType.Some?
    ensures accountType == Some("") ==> r == Some("")
    ensures accountType.Some? && accountType.value != "" ==>
      (OccursIn("check", Lower(accountType.value)) ==> r == Some("checking")) &&
      (!OccursIn("check", Lower(accountType.value)) && OccursIn("sav", Lower(accountType.value)) ==> r == Some("savings")) &&
      (!OccursIn("check", Lower(accountType.value)) && !OccursIn("sav", Lower(accountType.value)) ==> r == Some(Lower(accountType.value)))
  {
    match accountType
    case None => None
    case Some(a) =>
      if a == "" then Some(a)
      else
        var lowered := Lower(a);
        if Contains(lowered, "check") then Some("checking")
        else if Contains(lowered, "sav") then Some("savings")
        else Some(lowered)
  }

  /** `balances.get(account_type, "$0.00")`. */
  function Balance(accountType: Option<string>): string {
    if accountType == Some("checking") then "$2,450.75"
    else if accountType == Some("savings") then "$15,230.00"
    else "$0.00"
  }

  /** `ActionGetAccountBalance.run`: the normalised account type and its balance. */
  function GetAccountBalance(accountType: Option<string>): (events: seq<Event>)
    ensures |events| == 2
    ensures events[0] == SlotSet("account_type", SlotOf(NormaliseAccountType(accountType)))
    ensures events[1].name == "account_balance" && events[1].value.Text?
  {
    var normalised := NormaliseAccountType(accountType);
    [SlotSet("account_type", SlotOf(normalised)), SlotSet("account_balance", Text(Balance(normalised)))]
  }

  /** The accounts `ActionGetAccounts` lists. */
  const Accounts: string := "checking and savings"

  /** `ActionGetAccounts.run`. */
  function GetAccounts(): (events: seq<Event>)
    ensures events == [SlotSet("available_accounts", Text(Accounts))]
  {
    [SlotSet("available_accounts", Text(Accounts))]
  }

  /** `ActionProcessTransfer.run`: the transfer is only confirmed; no slot changes. */
  function ProcessTransfer(fromAccount: Option<string>, toAccount: Option<string>, amount: Option<string>): (events: seq<Event>)
    ensures events == []
  {
    []
  }

  /** `ActionGetTransactions.run`: no slot changes. */
  function GetTransactions(): (events: seq<Event>)
    ensures events == []
  {
    []
  }

  /** Every character is an ASCII digit. */
  function AllDigits(s: string): (b: bool)
    ensures b <==> forall i :: 0 <= i < |s| ==> IsDigit(s[i])
  {
    if s == [] then true
    else
      assert forall i :: 1 <= i < |s| ==> s[i] == s[1..][i - 1];
      IsDigit(s[0]) && AllDigits(s[1..])
  }

  /** `ActionBlockCard.run`: the card is blocked exactly when the slot is four digits. */
  function BlockCard(cardLastFour: Option<string>): (events: seq<Event>)
    ensures |events| == 1 && events[0].name == "card_blocked" && events[0].value.Flag?
    ensures events[0].value.flag <==>
      cardLastFour.Some? && |cardLastFour.value| == 4 && forall i :: 0 <= i < 4 ==> IsDigit(cardLastFour.value[i])
  {
    var blocked := match cardLastFour
      case Some(s) => s != "" && |s| == 4 && AllDigits(s)
      case None => false;
    [SlotSet("card_blocked", Flag(blocked))]
  }

  // ---------------------------------------------------------------------------
  // Properties

  /** Normalising twice gives what normalising once gives. */
  lemma {:induction false} NormaliseIdempotent(accountType: Option<string>)
    ensures NormaliseAccountType(NormaliseAccountType(accountType)) == NormaliseAccountType(accountType)
  {
    assert OccursAt("check", "checking", 0);
    assert OccursAt("sav", "savings", 0);
    assert Lower("checking") == "checking";
    assert Lower("savings") == "savings";
    forall i
      ensures !OccursAt("check", "savings", i)
    {
      if 0 <= i <= 2 {
        assert "savings"[i..i + 5][0] == "savings"[i] != 'c';
      }
    }
    assert !OccursIn("check", "savings");
    if accountType.Some? && accountType.value != "" {
      var lowered := Lower(accountType.value);
      assert Lower(lowered) == lowered;
    }
  }

  /** "check" wins over "sav" when a slot holds both. */
  lemma CheckBeforeSav(accountType: string)
    requires OccursIn("check", Lower(accountType)) && OccursIn("sav", Lower(accountType))
    ensures NormaliseAccountType(Some(accountType)) == Some("checking")
    ensures Balance(NormaliseAccountType(Some(accountType))) == "$2,450.75"
  {
  }

  /**
   * The balance a raw slot gets: checking's for anything containing "check"
   * in any case, savings' for anything else containing "sav", "$0.00" for
   * the rest, a missing slot included.
   */
  lemma {:induction false} BalanceOfSlot(accountType: Option<string>)
    ensures accountType.Some? && OccursIn("check", Lower(accountType.value)) ==>
      GetAccountBalance(accountType)[1].value == Text("$2,450.75")
    ensures accountType.Some? && !OccursIn("check", Lower(accountType.value)) && OccursIn("sav", Lower(accountType.value)) ==>
      GetAccountBalance(accountType)[1].value == Text("$15,230.00")
    ensures accountType.None? || (!OccursIn("check", Lower(accountType.value)) && !OccursIn("sav", Lower(accountType.value))) ==>
      GetAccountBalance(accountType)[1].value == Text("$0.00")
  {
    if accountType.Some? && accountType.value == "" {
      assert Lower("") == "";
      assert !Contains("", "check") && !Contains("", "sav");
    }
    if accountType.Some? && accountType.value != "" {
      var lowered := Lower(accountType.value);
      if !OccursIn("check", lowered) && !OccursIn("sav", lowered) {
        if lowered == "checking" {
          assert OccursAt("check", lowered, 0);
        }
        if lowered == "savings" {
          assert OccursAt("sav", lowered, 0);
        }
      }
    }
  }

  /** The two accounts listed are exactly the ones with a balance of their own. */
  lemma AccountsHaveBalances()
    ensures OccursIn("checking", Accounts) && OccursIn("savings", Accounts)
    ensures Balance(Some("checking")) != Balance(None) && Balance(Some("savings")) != Balance(None)
  {
    assert OccursAt("checking", Accounts, 0);
    assert Accounts[13..20] == "savings";
    assert OccursAt("savings", Accounts, 13);
  }

  /** Spoken digits with spaces are not accepted as they stand. */
  lemma SpacedDigitsRefused()
    ensures BlockCard(Some("4532"))[0].value == Flag(true)
    ensures BlockCard(Some("4 5 3 2"))[0].value == Flag(false)
    ensures BlockCard(Some("453"))[0].value == Flag(false)
    ensures BlockCard(None)[0].value == Flag(false)
  {
  }
}

/**
 * The sovereign (self-hosted) voice assistant's actions. The balance,
 * account list, transfer and transaction actions are the same code as the
 * voice assistant's; card blocking first strips everything but the digits
 * from the transcribed slot.
 */
module SovereignActions {
  import opened Wrappers
  import opened Seqs
  import opened Text
  import opened VoiceActions

  /** `''.join(c for c in s if c.isdigit())` keeps exactly the digits, in order. */
  lemma {:induction false} DigitsAreFilter(s: string)
    ensures Digits(s) == Filter(s, IsDigit)
  {
    if s != [] {
      DigitsAreFilter(s[1..]);
    }
  }

  /**
   * `ActionBlockCard.run`: a missing or empty slot only clears the flag;
   * otherwise the card is blocked exactly when the slot holds four digit
   * characters, which then replace the slot, and the slot is reset when not.
   */
  function BlockCard(cardLastFour: Option<string>): (events: seq<Event>)
    ensures cardLastFour.None? || cardLastFour == Some("") ==> events == [SlotSet("card_blocked", Flag(false))]
    ensures cardLastFour.Some? && cardLastFour.value != "" ==>
      var s := cardLastFour.value;
      |events| == 2 &&
      events[0] == SlotSet("card_blocked", Flag(Count(s, IsDigit) == 4)) &&
      events[1] == SlotSet("card_last_four", if Count(s, IsDigit) == 4 then Text(Filter(s, IsDigit)) else Unset)
  {
    match cardLastFour
    case None => [SlotSet("card_blocked", Flag(false))]
    case Some(s) =>
      if s == "" then [SlotSet("card_blocked", Flag(false))]
      else
        var cleaned := Digits(s);
        DigitsAreFilter(s);
        if |cleaned| != 4 then [SlotSet("card_blocked", Flag(false)), SlotSet("card_last_four", Unset)]
        else [SlotSet("card_blocked", Flag(true)), SlotSet("card_last_four", Text(cleaned))]
  }

  /**
   * Every slot the voice assistant accepts is accepted here too and stored
   * unchanged; a slot it refuses may still be accepted once spaces go.
   */
  lemma AcceptsWhatVoiceAccepts(cardLastFour: Option<string>)
    requires VoiceActions.BlockCard(cardLastFour)[0].value.flag
    ensures BlockCard(cardLastFour) ==
      [SlotSet("card_blocked", Flag(true)), SlotSet("card_last_four", Text(cardLastFour.value))]
  {
    DigitsAreFilter(cardLastFour.value);
  }

  /** "4 5 3 2" from speech blocks card 4532. */
  lemma SpokenDigitsCleaned()
    ensures BlockCard(Some("4 5 3 2")) == [SlotSet("card_blocked", Flag(true)), SlotSet("card_last_four", Text("4532"))]
  {
    assert Digits(" 2") == "2";
    assert Digits(" 3 2") == "32";
    assert Digits(" 5 3 2") == "532";
    assert Digits("4 5 3 2") == "4532";
  }

  /** Three digits are refused and the slot is reset so it is asked again; an empty slot only clears the flag. */
  lemma ShortSlotsRefused()
    ensures BlockCard(Some("45 3")) == [SlotSet("card_blocked", Flag(false)), SlotSet("card_last_four", Unset)]
    ensures BlockCard(Some("")) == [SlotSet("card_blocked", Flag(false))]
  {
    assert Digits("45 3") == "453";
  }
}
