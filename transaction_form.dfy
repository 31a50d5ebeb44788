/**
 * `TransactionFormView`: the sheet that records a new bill or edits one.
 * Its `@State` fields are the fields of `TransactionForm`; `onAppear`,
 * `analyzeText` and `save` are its methods.  The sheet's caller decides what
 * `onSave` does; for a new bill BillView inserts it into the store, which is
 * what `Save` does here.
 *
 * `analyzeText` awaits the service; the model runs the call to completion
 * inside the method (the service is the pure `AIService.ParseText` over an
 * `Env`), so the state it ensures is the state after the completion handler.
 */
module TransactionForm {
  import opened Common
  import opened Models
  import opened Localization
  import AIService

  const Expense: string := "支出"
  const Income: string := "收入"

  /** The channel picker's choices. */
  const Channels: seq<string> := ["微信", "支付宝", "银行卡", "现金", "其他"]

  /** The type picker's choices. */
  const Types: seq<string> := [Expense, Income]

  /** The stored amount: an expense is stored negative, anything else positive, whatever sign was typed. */
  function SignedAmount(kind: string, amount: real): (r: real)
    ensures Abs(r) == Abs(amount)
    ensures kind == Expense ==> r <= 0.0
    ensures kind != Expense ==> r >= 0.0
  {
    if kind == Expense then -Abs(amount) else Abs(amount)
  }

  /**
   * Opening a stored bill shows its absolute amount, and saving it unchanged
   * gives back the stored amount exactly when that amount already has the
   * sign its type calls for.
   */
  lemma EditKeepsAmount(kind: string, amount: real)
    ensures SignedAmount(kind, Abs(amount)) == amount <==> (if kind == Expense then amount <= 0.0 else amount >= 0.0)
  {
  }

  /** The channel the completion handler keeps: the proposed one if it is a picker choice, the current one otherwise. */
  function MergeChannel(current: string, proposed: string): (r: string)
    ensures proposed in Channels ==> r == proposed
    ensures proposed !in Channels ==> r == current
  {
    if proposed in Channels then proposed else current
  }

  /** Whatever the service answers, the merged channel is a picker choice if the current one was. */
  lemma MergeChannelStaysChoice(current: string, proposed: string)
    requires current in Channels
    ensures MergeChannel(current, proposed) in Channels
  {
  }

  class TransactionForm {
    const itemToEdit: Option<BillItem>
    var date: Date
    var kind: string
    var category: string
    var channel: string
    var amount: real
    var note: string
    var aiInput: string
    var isAnalyzing: bool

    /** The view's initial state: an expense paid with WeChat, dated now, everything else empty. */
    constructor (itemToEdit: Option<BillItem>, now: Date)
      ensures this.itemToEdit == itemToEdit && date == now
      ensures kind == Expense && category == "" && channel == "微信" && amount == 0.0 && note == ""
      ensures aiInput == "" && !isAnalyzing
      ensures channel in Channels && kind in Types
    {
      this.itemToEdit := itemToEdit;
      date := now;
      kind := Expense;
      category := "";
      channel := "微信";
      amount := 0.0;
      note := "";
      aiInput := "";
      isAnalyzing := false;
    }

    /** The save button is disabled without a category or with a zero amount. */
    predicate SaveDisabled()
      reads this
    {
      category == "" || amount == 0.0
    }

    /** The magic-wand button is disabled without input or while a request is running. */
    predicate AnalyzeDisabled()
      reads this
    {
      aiInput == "" || isAnalyzing
    }

    /** `onAppear`: an edited bill's fields are loaded, its amount without sign. */
    method OnAppear()
      modifies this
      ensures itemToEdit.None? ==>
        date == old(date) && kind == old(kind) && category == old(category) && channel == old(channel)
        && amount == old(amount) && note == old(note)
      ensures itemToEdit.Some? ==>
        var item := itemToEdit.value;
        date == item.date && kind == item.kind && category == item.category && channel == item.channel
        && amount == Abs(item.amount) && note == item.note
      ensures amount >= 0.0 || itemToEdit.None?
      ensures aiInput == old(aiInput) && isAnalyzing == old(isAnalyzing)
      ensures itemToEdit.Some? ==> (SaveDisabled() <==> itemToEdit.value.category == "" || itemToEdit.value.amount == 0.0)
    {
      if itemToEdit.Some? {
        var item := itemToEdit.value;
        date := item.date;
        kind := item.kind;
        amount := Abs(item.amount);
        category := item.category;
        channel := item.channel;
        note := item.note;
      }
    }

    /**
     * `analyzeText`: without input nothing happens and nothing is sent.
     * Otherwise the sentence goes to `parseText`; on success amount, category,
     * type and note are replaced and the channel only when it is a picker
     * choice; on failure only the note changes, to the failure message.
     * Either way the form stops analyzing.
     */
    method AnalyzeText(provider: string, lang: Language, env: AIService.Env, describe: AIService.AIError -> string)
      returns (sent: seq<AIService.Request>)
      modifies this
      ensures aiInput == old(aiInput) && date == old(date)
      ensures old(aiInput) == "" ==>
        sent == [] && kind == old(kind) && category == old(category) && channel == old(channel)
        && amount == old(amount) && note == old(note) && isAnalyzing == old(isAnalyzing)
      ensures old(aiInput) != "" ==>
        var o := AIService.ParseText(old(aiInput), provider, env);
        && sent == o.sent
        && !isAnalyzing
        && (o.result.Ok? ==>
              var bill := o.result.value;
              && amount == bill.amount && category == bill.category && kind == bill.kind && note == bill.note
              && channel == MergeChannel(old(channel), bill.channel))
        && (o.result.Err? ==>
              && note == AIService.FailureNote(lang, "识别失败", describe(o.result.error))
              && amount == old(amount) && category == old(category) && kind == old(kind) && channel == old(channel))
      ensures old(channel) in Channels ==> channel in Channels
    {
      sent := [];
      if aiInput == "" {
        return;
      }
      isAnalyzing := true;
      var o := AIService.ParseText(aiInput, provider, env);
      sent := o.sent;
      Complete(o.result, lang, describe);
    }

    /** The completion handler of `analyzeText`, on the service's answer. */
    method Complete(result: Result<AIService.ParsedBill, AIService.AIError>, lang: Language, describe: AIService.AIError -> string)
      modifies this
      ensures aiInput == old(aiInput) && date == old(date) && !isAnalyzing
      ensures result.Ok? ==>
        var bill := result.value;
        && amount == bill.amount && category == bill.category && kind == bill.kind && note == bill.note
        && channel == MergeChannel(old(channel), bill.channel)
      ensures result.Err? ==>
        && note == AIService.FailureNote(lang, "识别失败", describe(result.error))
        && amount == old(amount) && category == old(category) && kind == old(kind) && channel == old(channel)
    {
      match result {
        case Ok(bill) =>
          amount := bill.amount;
          category := bill.category;
          kind := bill.kind;
          note := bill.note;
          channel := MergeChannel(channel, bill.channel);
          isAnalyzing := false;
        case Err(e) =>
          note := AIService.FailureNote(lang, "识别失败", describe(e));
          isAnalyzing := false;
      }
    }

    /**
     * `save`: the amount is signed by the type.  An edited bill gets the six
     * fields in place and the store is untouched; a new bill with a fresh id is
     * appended to the store.
     */
    method Save(store: Store) returns (item: BillItem)
      requires store.Valid()
      modifies store`bills, store`nextId
      modifies if itemToEdit.Some? then {itemToEdit.value} else {}
      ensures store.Valid()
      ensures item.Record() == BillRecord(date, kind, category, channel, SignedAmount(kind, amount), note)
      ensures itemToEdit.Some? ==> item == itemToEdit.value && store.bills == old(store.bills) && store.nextId == old(store.nextId)
      ensures itemToEdit.None? ==> fresh(item) && store.bills == old(store.bills) + [item]
    {
      var finalAmount := SignedAmount(kind, amount);
      if itemToEdit.Some? {
        item := itemToEdit.value;
        item.date := date;
        item.kind := kind;
        item.amount := finalAmount;
        item.category := category;
        item.channel := channel;
        item.note := note;
      } else {
        var id := store.NewId();
        item := new BillItem(id, date, kind, category, channel, finalAmount, note);
        store.InsertBill(item);
      }
    }
  }

  /**
   * Opening a stored bill in the form and saving it at once leaves every field
   * as it was, except that the amount takes the sign its type calls for.
   */
  method LoadThenSave(store: Store, b: BillItem, now: Date) returns (item: BillItem)
    requires store.Valid()
    modifies store`bills, store`nextId, b
    ensures store.Valid() && item == b && store.bills == old(store.bills)
    ensures b.date == old(b.date) && b.kind == old(b.kind) && b.category == old(b.category)
    ensures b.channel == old(b.channel) && b.note == old(b.note)
    ensures b.amount == SignedAmount(old(b.kind), old(b.amount))
    ensures b.amount == old(b.amount) <==> (if old(b.kind) == Expense then old(b.amount) <= 0.0 else old(b.amount) >= 0.0)
  {
    var form := new TransactionForm(Some(b), now);
    form.OnAppear();
    item := form.Save(store);
    EditKeepsAmount(old(b.kind), old(b.amount));
  }
}
