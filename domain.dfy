/**
 * The records of the Pet-Mart shop that are passed around by value: products
 * and their summaries, customers, orders, accounts and contact messages, plus
 * the error and HTTP-outcome types the controllers return.
 *
 * Prices and amounts are Java doubles in the shop; here they are integers in
 * minor units, so only exact-arithmetic facts carry over. Dates and clock
 * readings are integer timestamps supplied by the caller.
 */
module Domain {
  import opened Wrappers

  /** A clock reading (milliseconds); the model never reads a clock itself. */
  type Timestamp = int

  /** The identifier a session may carry under its "userId" attribute. */
  type UserId = string

  /** Product.PetType. */
  datatype PetType = DOG | CAT | BIRD | FISH | OTHER

  /** Enum.name() of a pet type. */
  function PetTypeName(t: PetType): string {
    match t
    case DOG => "DOG"
    case CAT => "CAT"
    case BIRD => "BIRD"
    case FISH => "FISH"
    case OTHER => "OTHER"
  }

  /**
   * PetType.valueOf: an exact, case-sensitive match of a constant name;
   * None stands for the IllegalArgumentException it throws otherwise.
   */
  function ParsePetType(s: string): (r: Option<PetType>)
    ensures r.Some? ==> PetTypeName(r.value) == s
    ensures r.None? ==> forall t: PetType :: PetTypeName(t) != s
  {
    if s == "DOG" then Some(DOG)
    else if s == "CAT" then Some(CAT)
    else if s == "BIRD" then Some(BIRD)
    else if s == "FISH" then Some(FISH)
    else if s == "OTHER" then Some(OTHER)
    else None
  }

  /** The text of the IllegalArgumentException PetType.valueOf throws, before the rejected name. */
  const PET_TYPE_PREFIX: string := "No enum constant com.example.demo.entity.Product.PetType."

  /** The products table; `code` is the primary key. */
  datatype Product = Product(
    code: string,
    name: string,
    petType: PetType,
    breed: string,
    age: string,
    gender: string,
    description: string,
    price: int,
    status: string,
    createDate: Timestamp,
    imagePath: Option<string>)

  /** The summary of a product that a cart line carries. */
  datatype ProductInfo = ProductInfo(code: string, name: string, price: int)

  /** `new ProductInfo(product)`. */
  function InfoOf(p: Product): (r: ProductInfo)
    ensures r.code == p.code && r.name == p.name && r.price == p.price
  {
    ProductInfo(p.code, p.name, p.price)
  }

  /**
   * The customer attached to a cart or submitted with a reservation. The two
   * optional strings stay null when the record is built from a Customer.
   */
  datatype CustomerInfo = CustomerInfo(
    name: string,
    address: string,
    email: string,
    phone: string,
    valid: bool,
    preferredVisitDate: Option<string>,
    message: Option<string>)

  /** The customer form bound by the server-side checkout pages. */
  datatype Customer = Customer(name: string, address: string, email: string, phone: string, valid: bool)

  /** `new CustomerInfo(customer)`: copies the five form fields and nothing else. */
  function CustomerInfoOf(c: Customer): (r: CustomerInfo)
    ensures r.name == c.name && r.address == c.address && r.email == c.email && r.phone == c.phone
    ensures r.valid == c.valid
    ensures r.preferredVisitDate.None? && r.message.None?
  {
    CustomerInfo(c.name, c.address, c.email, c.phone, c.valid, None, None)
  }

  /** One row of an order: a snapshot of a cart line. */
  datatype OrderDetail = OrderDetail(productCode: string, productName: string, quantity: int, price: int, amount: int)

  /** An order with its customer copied flat and its details. */
  datatype Order = Order(
    orderNum: int,
    orderDate: Timestamp,
    amount: int,
    customerName: string,
    customerAddress: string,
    customerEmail: string,
    customerPhone: string,
    details: seq<OrderDetail>)

  /** The role strings of Account. */
  const ROLE_ADMIN: string := "ROLE_ADMIN"
  const ROLE_USER: string := "ROLE_USER"

  /** An account; `email` is the primary key and the password is stored encoded. */
  datatype Account = Account(
    email: string,
    encodedPassword: string,
    firstName: string,
    lastName: string,
    phone: string,
    role: string,
    active: bool)

  /** A contact-form message. */
  datatype Contact = Contact(name: string, email: string, phone: string, subject: string, message: string)

  /** An uploaded file: its original name, which the browser may omit, and whether it is empty. */
  datatype Upload = Upload(originalFilename: Option<string>, isEmpty: bool)

  /** The admin product form; `petType` is still the raw string. */
  datatype ProductForm = ProductForm(
    code: string,
    name: string,
    petType: string,
    breed: string,
    age: string,
    gender: string,
    description: string,
    price: int,
    status: string,
    fileData: Option<Upload>,
    newProduct: bool)

  /** An upload that carries content: `fileData != null && !fileData.isEmpty()`. */
  predicate HasFile(f: Option<Upload>) {
    f.Some? && !f.value.isEmpty
  }

  /** The exceptions the core throws, with their messages. */
  datatype Error =
    | IllegalArgument(message: string)
    | IllegalState(message: string)
    | Runtime(message: string)
    | NullReference
    | StorageFailure

  /** getMessage() of an exception; the two without a modelled text give "". */
  function MessageOf(e: Error): string {
    match e
    case IllegalArgument(m) => m
    case IllegalState(m) => m
    case Runtime(m) => m
    case NullReference => ""
    case StorageFailure => ""
  }

  /** An HTTP outcome of a REST endpoint. */
  datatype Response<T> =
    | Ok(body: T)
    | BadRequest(message: string)
    | Forbidden(message: string)
    | NotFound
    | ServerError(message: string)

  /** The outcome of a server-rendered page handler: a view name or a redirect. */
  datatype View = Render(name: string) | Redirect(path: string)
}
