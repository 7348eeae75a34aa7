/**
  * The transaction classifier both transaction views apply to the type URL of a
  * transaction's first message: substring tests in a fixed order, then a fallback on the last
  * dotted segment of the URL.
  */
module Classify {
  import opened Text

  /**
    * `parts[parts.length - 1]?.replace('Msg', '') || 'Unknown'` on `typeUrl.split('.')`:
    * the text after the last '.', with its first "Msg" removed, or 'Unknown' when that is empty.
    */
  function FallbackType(typeUrl: string): (t: string)
    ensures t != ""
    ensures t == "Unknown" || t == RemoveFirst(LastSegment(typeUrl, '.'), "Msg")
    ensures RemoveFirst(LastSegment(typeUrl, '.'), "Msg") != "" ==> t == RemoveFirst(LastSegment(typeUrl, '.'), "Msg")
  {
    var parts := Split(typeUrl, '.');
    var name := RemoveFirst(parts[|parts| - 1], "Msg");
    if name != "" then name else "Unknown"
  }

  /** The type column of the transactions list (`transactions.get.ts`). */
  function TxTypeOf(typeUrl: string): (t: string)
    ensures t != ""
  {
    if Contains(typeUrl, "MsgSend") then "Transfer"
    else if Contains(typeUrl, "MsgDelegate") then "Delegate"
    else if Contains(typeUrl, "MsgUndelegate") then "Undelegate"
    else if Contains(typeUrl, "MsgCreateBTCDelegation") then "BTC Stake"
    else if Contains(typeUrl, "MsgVote") then "Vote"
    else FallbackType(typeUrl)
  }

  /**
    * The type key of the analytics histogram (`overview.get.ts`): the same tests with two more,
    * for finality signatures and public randomness, before the fallback.
    */
  function OverviewTypeOf(typeUrl: string): (t: string)
    ensures t != ""
  {
    if Contains(typeUrl, "MsgSend") then "Transfer"
    else if Contains(typeUrl, "MsgDelegate") then "Delegate"
    else if Contains(typeUrl, "MsgUndelegate") then "Undelegate"
    else if Contains(typeUrl, "MsgCreateBTCDelegation") then "BTC Stake"
    else if Contains(typeUrl, "MsgVote") then "Vote"
    else if Contains(typeUrl, "MsgAddFinalitySig") then "Finality Sig"
    else if Contains(typeUrl, "MsgCommitPubRandList") then "Pub Rand"
    else FallbackType(typeUrl)
  }

  /** The URL names one of the five messages the list recognises. */
  predicate NamesListedMsg(typeUrl: string) {
    Contains(typeUrl, "MsgSend") || Contains(typeUrl, "MsgDelegate") || Contains(typeUrl, "MsgUndelegate")
    || Contains(typeUrl, "MsgCreateBTCDelegation") || Contains(typeUrl, "MsgVote")
  }

  /** The five named types the list recognises. */
  predicate IsNamedTxType(t: string) {
    t == "Transfer" || t == "Delegate" || t == "Undelegate" || t == "BTC Stake" || t == "Vote"
  }

  /**
    * The priority order: each of the five messages decides the type when the URL names none
    * of those checked before it (a URL naming a bank send is a transfer whatever else it names),
    * and a URL naming none of the five falls back to its last segment.
    */
  lemma TxTypePriority(typeUrl: string)
    ensures Contains(typeUrl, "MsgSend") ==> TxTypeOf(typeUrl) == "Transfer"
    ensures !Contains(typeUrl, "MsgSend") && Contains(typeUrl, "MsgDelegate") ==> TxTypeOf(typeUrl) == "Delegate"
    ensures !Contains(typeUrl, "MsgSend") && !Contains(typeUrl, "MsgDelegate") && Contains(typeUrl, "MsgUndelegate")
      ==> TxTypeOf(typeUrl) == "Undelegate"
    ensures (!Contains(typeUrl, "MsgSend") && !Contains(typeUrl, "MsgDelegate") && !Contains(typeUrl, "MsgUndelegate")
             && Contains(typeUrl, "MsgCreateBTCDelegation")) ==> TxTypeOf(typeUrl) == "BTC Stake"
    ensures (!Contains(typeUrl, "MsgSend") && !Contains(typeUrl, "MsgDelegate") && !Contains(typeUrl, "MsgUndelegate")
             && !Contains(typeUrl, "MsgCreateBTCDelegation") && Contains(typeUrl, "MsgVote")) ==> TxTypeOf(typeUrl) == "Vote"
    ensures NamesListedMsg(typeUrl) ==> IsNamedTxType(TxTypeOf(typeUrl))
    ensures !NamesListedMsg(typeUrl) ==> TxTypeOf(typeUrl) == FallbackType(typeUrl)
  {
  }

  /**
    * The two classifiers agree except on the URLs the histogram recognises and the list does not:
    * those go to 'Finality Sig' or 'Pub Rand' there, and to their fallback in the list.
    */
  lemma ClassifiersAgree(typeUrl: string)
    ensures !Contains(typeUrl, "MsgAddFinalitySig") && !Contains(typeUrl, "MsgCommitPubRandList") ==>
      OverviewTypeOf(typeUrl) == TxTypeOf(typeUrl)
    ensures OverviewTypeOf(typeUrl) != TxTypeOf(typeUrl) ==>
      (OverviewTypeOf(typeUrl) == "Finality Sig" || OverviewTypeOf(typeUrl) == "Pub Rand")
      && TxTypeOf(typeUrl) == FallbackType(typeUrl)
    ensures IsNamedTxType(TxTypeOf(typeUrl)) && TxTypeOf(typeUrl) != FallbackType(typeUrl) ==>
      OverviewTypeOf(typeUrl) == TxTypeOf(typeUrl)
  {
    if NamesListedMsg(typeUrl) {
      assert OverviewTypeOf(typeUrl) == TxTypeOf(typeUrl);
    } else {
      assert TxTypeOf(typeUrl) == FallbackType(typeUrl);
    }
  }
}
