// Order submission for the car-rental backend: a signed-in user buys hours
// of a car package, paid from the balance of their linked credit card, and
// receives an access key.  Repositories are modelled as fields of the service
// (a map for the package catalogue, sequences for saved keys and orders).

module OrderService {
  import opened Wrappers

  /** A credit card; only its balance (in the smallest currency unit) ever changes. */
  class CreditCard {
    const cardNumber: int
    const month: int
    const year: int
    const cvv: int
    var accountBalance: int

    constructor (cardNumber: int, month: int, year: int, cvv: int, accountBalance: int)
      ensures this.cardNumber == cardNumber && this.month == month && this.year == year
      ensures this.cvv == cvv && this.accountBalance == accountBalance
    {
      this.cardNumber := cardNumber;
      this.month := month;
      this.year := year;
      this.cvv := cvv;
      this.accountBalance := accountBalance;
    }
  }

  /** A user, with an optional linked card (null when none is linked). */
  class User {
    const username: string
    const creditCard: CreditCard?

    constructor (username: string, creditCard: CreditCard?)
      ensures this.username == username && this.creditCard == creditCard
    {
      this.username := username;
      this.creditCard := creditCard;
    }
  }

  /** A rentable package, priced per hour. */
  datatype CarPackage = CarPackage(packageName: string, pricePerHour: int)

  /** The credential a successful order issues: which package, for how many hours. */
  datatype AccessKey = AccessKey(carPackage: string, hours: int)

  /** What the caller gets back: the public fields of the saved access key. */
  datatype AccessKeyDto = AccessKeyDto(carPackage: string, hours: int)

  /** A past order, as the order repository lists it. */
  datatype PlacedOrder = PlacedOrder(userId: int, carId: int, brand: string, model: string)

  /** The three ways a submission fails. */
  datatype OrderError = NoCreditCard | EntityNotFound | InsufficientFunds

  /** What a successful submission produces: the key issued and the balance left. */
  datatype Debit = Debit(key: AccessKey, balance: int)

  function ToDto(key: AccessKey): (dto: AccessKeyDto)
    ensures dto.carPackage == key.carPackage && dto.hours == key.hours
  {
    AccessKeyDto(key.carPackage, key.hours)
  }

  function FromDto(dto: AccessKeyDto): (key: AccessKey)
    ensures key.carPackage == dto.carPackage && key.hours == dto.hours
  {
    AccessKey(dto.carPackage, dto.hours)
  }

  /** The price of `hours` hours of `pkg`, exact and unrounded. */
  function Charge(pkg: CarPackage, hours: int): (charge: int)
    ensures pkg.pricePerHour >= 0 && hours >= 0 ==> charge >= 0
  {
    pkg.pricePerHour * hours
  }

  /** A catalogue looked up by name holds every package under its own name. */
  predicate IndexedByName(packages: map<string, CarPackage>)
  {
    forall n :: n in packages ==> packages[n].packageName == n
  }

  /**
   * Order submission on values: `balance` is the card's balance, or None when
   * the user has no card.  The checks come in a fixed order: the card, then
   * the package lookup, then the funds.
   */
  function Submit(balance: Option<int>, packages: map<string, CarPackage>, name: string, hours: int)
    : (r: Result<Debit, OrderError>)
    ensures r.Success? ==> r.value.key == AccessKey(name, hours) && r.value.balance >= 0
  {
    if balance.None? then Failure(NoCreditCard)
    else if name !in packages then Failure(EntityNotFound)
    else if balance.value < Charge(packages[name], hours) then Failure(InsufficientFunds)
    else Success(Debit(AccessKey(name, hours), balance.value - Charge(packages[name], hours)))
  }

  /** An access key and its descriptor carry the same fields, both ways round. */
  lemma DtoMirrorsKey(key: AccessKey, dto: AccessKeyDto)
    ensures FromDto(ToDto(key)) == key
    ensures ToDto(FromDto(dto)) == dto
  {
  }

  /** A submission succeeds exactly when there is a card, the package exists and the balance covers the charge. */
  lemma SubmitSucceedsIff(balance: Option<int>, packages: map<string, CarPackage>, name: string, hours: int)
    ensures Submit(balance, packages, name, hours).Success? <==>
      balance.Some? && name in packages && balance.value >= Charge(packages[name], hours)
  {
  }

  /** On success the balance drops by exactly price times hours. */
  lemma SubmitDebitsExactly(balance: Option<int>, packages: map<string, CarPackage>, name: string, hours: int)
    requires Submit(balance, packages, name, hours).Success?
    ensures var d := Submit(balance, packages, name, hours).value;
      d.balance == balance.value - packages[name].pricePerHour * hours
  {
  }

  /** In a catalogue indexed by name, the key issued names the package that was found. */
  lemma KeyNamesFoundPackage(balance: Option<int>, packages: map<string, CarPackage>, name: string, hours: int)
    requires IndexedByName(packages)
    requires Submit(balance, packages, name, hours).Success?
    ensures name in packages && Submit(balance, packages, name, hours).value.key.carPackage == packages[name].packageName
  {
  }

  /** Without a card the submission fails with NoCreditCard, before the catalogue is consulted. */
  lemma NoCardComesFirst(packages: map<string, CarPackage>, name: string, hours: int)
    ensures Submit(None, packages, name, hours) == Failure(NoCreditCard)
  {
  }

  /** An unknown package fails with EntityNotFound, before the funds are checked. */
  lemma LookupBeforeFunds(balance: int, packages: map<string, CarPackage>, name: string, hours: int)
    requires name !in packages
    ensures Submit(Some(balance), packages, name, hours) == Failure(EntityNotFound)
  {
  }

  /** InsufficientFunds is reported exactly when a card and a package exist but the balance is below the charge. */
  lemma InsufficientFundsIff(balance: Option<int>, packages: map<string, CarPackage>, name: string, hours: int)
    ensures Submit(balance, packages, name, hours) == Failure(InsufficientFunds) <==>
      balance.Some? && name in packages && balance.value < Charge(packages[name], hours)
  {
  }

  /**
   * The service, bound to the signed-in user.  `packages` stands for the
   * package repository's lookup by name, `accessKeys` for the keys saved so
   * far and `orders` for the order repository's contents.
   */
  class OrderService {
    const loggedInUser: User
    const packages: map<string, CarPackage>
    var accessKeys: seq<AccessKey>
    const orders: seq<PlacedOrder>

    constructor (loggedInUser: User, packages: map<string, CarPackage>, orders: seq<PlacedOrder>)
      requires IndexedByName(packages)
      ensures Valid()
      ensures this.loggedInUser == loggedInUser && this.packages == packages
      ensures this.accessKeys == [] && this.orders == orders
    {
      this.loggedInUser := loggedInUser;
      this.packages := packages;
      this.accessKeys := [];
      this.orders := orders;
    }

    /** The package repository finds each package by its own name. */
    predicate Valid()
    {
      IndexedByName(packages)
    }

    /** The signed-in user's card balance, or None when no card is linked. */
    function Balance(): (b: Option<int>)
      reads loggedInUser.creditCard
      ensures b.None? <==> loggedInUser.creditCard == null
    {
      if loggedInUser.creditCard == null then None else Some(loggedInUser.creditCard.accountBalance)
    }

    /**
     * Places an order for `hours` hours of the package called `packageName`.
     * On success the card is debited in place and the new key is saved; on
     * any failure nothing changes.
     */
    method SubmitOrder(packageName: string, hours: int) returns (r: Result<AccessKeyDto, OrderError>)
      requires Valid()
      modifies this, loggedInUser.creditCard
      ensures Valid()
      ensures r.Success? ==> packageName in packages && r.value.carPackage == packages[packageName].packageName
      ensures var s := Submit(old(Balance()), packages, packageName, hours);
        match s
        case Success(d) =>
          r == Success(ToDto(d.key)) && Balance() == Some(d.balance) && accessKeys == old(accessKeys) + [d.key]
        case Failure(e) =>
          r == Failure(e) && Balance() == old(Balance()) && accessKeys == old(accessKeys)
    {
      var card := loggedInUser.creditCard;
      if card == null {
        return Failure(NoCreditCard);
      }
      if packageName !in packages {
        return Failure(EntityNotFound);
      }
      var charge := packages[packageName].pricePerHour * hours;
      if card.accountBalance < charge {
        return Failure(InsufficientFunds);
      }
      card.accountBalance := card.accountBalance - charge;
      var key := AccessKey(packageName, hours);
      accessKeys := accessKeys + [key];
      return Success(ToDto(key));
    }

    /** Every order in the repository, same elements in the same order. */
    method GetOrders() returns (result: seq<PlacedOrder>)
      ensures result == orders
    {
      result := orders;
    }
  }

  /** Balance 1200, "Luxury" at 500 an hour, 2 hours: key {Luxury, 2} and 200 left on the card. */
  method LuxuryOrder() returns (r: Result<AccessKeyDto, OrderError>, balance: int, saved: seq<AccessKey>)
    ensures r == Success(AccessKeyDto("Luxury", 2))
    ensures balance == 200
    ensures saved == [AccessKey("Luxury", 2)]
  {
    var card := new CreditCard(7755443334559900, 4, 2023, 278, 1200);
    var user := new User("", card);
    var service := new OrderService(user, map["Luxury" := CarPackage("Luxury", 500)], []);
    r := service.SubmitOrder("Luxury", 2);
    balance := card.accountBalance;
    saved := service.accessKeys;
  }

  /** A user without a card gets NoCreditCard, whatever the catalogue holds. */
  method OrderWithoutCard(packages: map<string, CarPackage>) returns (r: Result<AccessKeyDto, OrderError>)
    requires IndexedByName(packages)
    ensures r == Failure(NoCreditCard)
  {
    var user := new User("Tomasz", null);
    var service := new OrderService(user, packages, []);
    r := service.SubmitOrder("Ordinary", 2);
  }

  /** An empty catalogue gives EntityNotFound even on an empty card, and the balance stays 0. */
  method OrderUnknownPackage() returns (r: Result<AccessKeyDto, OrderError>, balance: int)
    ensures r == Failure(EntityNotFound)
    ensures balance == 0
  {
    var card := new CreditCard(0, 0, 0, 0, 0);
    var user := new User("Radoslaw", card);
    var service := new OrderService(user, map[], []);
    r := service.SubmitOrder("BigCar", 3);
    balance := card.accountBalance;
  }

  /** Balance 600 against 2 hours at 500: InsufficientFunds, balance untouched, no key saved. */
  method OrderBeyondBalance() returns (r: Result<AccessKeyDto, OrderError>, balance: int, saved: seq<AccessKey>)
    ensures r == Failure(InsufficientFunds)
    ensures balance == 600
    ensures saved == []
  {
    var card := new CreditCard(0, 0, 0, 0, 600);
    var user := new User("Radoslaw", card);
    var service := new OrderService(user, map["Luxury" := CarPackage("Luxury", 500)], []);
    r := service.SubmitOrder("Luxury", 2);
    balance := card.accountBalance;
    saved := service.accessKeys;
  }

  /** The four stored orders come back as they are. */
  method ListFourOrders() returns (result: seq<PlacedOrder>)
    ensures result == [PlacedOrder(1, 5, "Ford", "Mustang"), PlacedOrder(37, 15, "Fiat", "Brava"),
                       PlacedOrder(9, 7, "Daewoo", "Matiz"), PlacedOrder(4, 9, "Porsche", "Cayman")]
  {
    var orders := [PlacedOrder(1, 5, "Ford", "Mustang"), PlacedOrder(37, 15, "Fiat", "Brava"),
                   PlacedOrder(9, 7, "Daewoo", "Matiz"), PlacedOrder(4, 9, "Porsche", "Cayman")];
    var user := new User("", null);
    var service := new OrderService(user, map[], orders);
    result := service.GetOrders();
  }
}
