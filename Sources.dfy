/** The two other string-backed enums the endpoints need: bank sources and API servers. */
module Sources {

  /** `BankSource`: the institution whose rates the API reports. */
  datatype BankSource =
    | InternationalMonetaryFund
    | ReverseBankOfAustralia
    | BankOfCanada
    | SwissNationalBank
    | TheCentralBankOfTheRussianFederation
    | NationalBankOfUkraine
    | NationalBankOfRomania
    | BankOfIsrael
    | NorgesBank
    | CentralBankOfNigeria
    | EuropeanCentralBank
  {
    function Value(): string
    {
      match this
      case InternationalMonetaryFund => "imf"
      case ReverseBankOfAustralia => "rba"
      case BankOfCanada => "boc"
      case SwissNationalBank => "snb"
      case TheCentralBankOfTheRussianFederation => "cbr"
      case NationalBankOfUkraine => "nbu"
      case NationalBankOfRomania => "bnro"
      case BankOfIsrael => "boi"
      case NorgesBank => "nob"
      case CentralBankOfNigeria => "cbn"
      case EuropeanCentralBank => "ecb"
    }
  }

  /** `Server`: the base URL requests go to. */
  datatype Server = EuCentral | EuScandinavian | UsCentral
  {
    function Value(): string
    {
      match this
      case EuCentral => "https://api.exchangerate.host"
      case EuScandinavian => "https://api-eu.exchangerate.host"
      case UsCentral => "https://api-us.exchangerate.host"
    }
  }
}
