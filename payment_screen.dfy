/**
 * The payment form's validation: the required fields depend on the payment
 * method; a failing guard shows one error and stops, otherwise the flow goes on
 * to the confirmation step.
 */
module Payment {

  datatype PaymentMethod = Qris | Bank

  /** The method selected when the screen opens. */
  const DefaultMethod: PaymentMethod := Qris

  datatype BankOption = BankOption(id: string, name: string, code: string)

  /** The banks offered for a transfer; their ids are pairwise distinct. */
  function BankOptions(): (banks: seq<BankOption>)
    ensures |banks| == 4
    ensures forall i, j :: 0 <= i < j < |banks| ==> banks[i].id != banks[j].id
  {
    [ BankOption("1", "Bank Mandiri", "MANDIRI"),
      BankOption("2", "BCA", "BCA"),
      BankOption("3", "BNI", "BNI"),
      BankOption("4", "BRI", "BRI") ]
  }

  const FillAllMessage: string := "Please fill in all fields"
  const AmountMessage: string := "Please enter the amount"

  datatype PaymentOutcome = PaymentError(message: string) | ConfirmPayment(amount: string)

  /**
   * `handlePayment`'s decision. A bank transfer needs a bank, an account number
   * and an amount; a QRIS payment needs only an amount. At most one error is
   * reported, and a confirmation always carries a non-empty amount.
   */
  function ValidatePayment(selectedMethod: PaymentMethod, selectedBank: string, accountNumber: string, amount: string)
    : (r: PaymentOutcome)
    ensures r == PaymentError(FillAllMessage) <==>
      selectedMethod == Bank && (selectedBank == "" || accountNumber == "" || amount == "")
    ensures r == PaymentError(AmountMessage) <==> selectedMethod == Qris && amount == ""
    ensures r.PaymentError? || r == ConfirmPayment(amount)
    ensures r.ConfirmPayment? ==> amount != ""
    ensures r.ConfirmPayment? <==>
      !(selectedMethod == Bank && (selectedBank == "" || accountNumber == "" || amount == "")) &&
      !(selectedMethod == Qris && amount == "")
    ensures r.PaymentError? ==> r.message == FillAllMessage || r.message == AmountMessage
  {
    if selectedMethod == Bank && (selectedBank == "" || accountNumber == "" || amount == "") then
      PaymentError(FillAllMessage)
    else if selectedMethod == Qris && amount == "" then
      PaymentError(AmountMessage)
    else
      // Splitting on the method shows that neither guard firing leaves a non-empty amount.
      assert selectedMethod.Bank? || selectedMethod.Qris?;
      ConfirmPayment(amount)
  }

  /** With QRIS the bank and account-number fields never affect the outcome. */
  lemma QrisIgnoresBankFields(bank1: string, account1: string, bank2: string, account2: string, amount: string)
    ensures ValidatePayment(Qris, bank1, account1, amount) == ValidatePayment(Qris, bank2, account2, amount)
  {
  }

  /** A confirmed bank transfer had every field filled in. */
  lemma BankConfirmationIsComplete(bank: string, account: string, amount: string)
    requires ValidatePayment(Bank, bank, account, amount).ConfirmPayment?
    ensures bank != "" && account != "" && amount != ""
  {
  }

  /** The screen as first shown (QRIS, nothing entered) asks for the amount. */
  lemma InitialPaymentAsksForAmount()
    ensures ValidatePayment(DefaultMethod, "", "", "") == PaymentError(AmountMessage)
  {
  }
}
