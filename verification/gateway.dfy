/** The three payment-rail calls the workflow makes, with their request shapes
    (internal/adapters/payments/afriex/types.go, internal/core/ports/payment.go).
    The HTTP client behind them is not modelled: each call is a pure function
    from its request to `Ok(identifier)` or `Err(error text)`. */
module Gateway {

  import opened Wrappers

  datatype CustomerRequest = CustomerRequest(
    fullName: string,
    email: string,
    phone: string,
    countryCode: string)

  datatype Institution = Institution(institutionName: string, institutionCode: string)

  datatype PaymentMethodRequest = PaymentMethodRequest(
    channel: string,
    customerId: string,
    accountName: string,
    accountNumber: string,
    countryCode: string,
    institution: Institution)

  datatype TransactionRequest = TransactionRequest(
    customerId: string,
    destinationAmount: string,
    destinationCurrency: string,
    sourceCurrency: string,
    destinationId: string,
    meta: map<string, string>)

  /** How the rail answers each call: the created customer id, payment-method id
      or transaction id, or the error's text. */
  datatype Rail = Rail(
    createCustomer: CustomerRequest -> Result<string, string>,
    createPaymentMethod: PaymentMethodRequest -> Result<string, string>,
    createTransaction: TransactionRequest -> Result<string, string>)
}
