/**
 * AdminController: the server-rendered admin sign-up, the secret-key probe,
 * and the product form with its save. Page handlers answer a View plus the
 * "errorMessage" model attribute they set, if any.
 */
module Admin {
  import opened Wrappers
  import opened Domain
  import opened Stores
  import opened ProductCodes

  /** `new ProductForm(product)`: the product's fields, its pet type by name, an edit. */
  function FormOf(p: Product): (f: ProductForm)
    ensures !f.newProduct && f.fileData.None?
    ensures ParsePetType(f.petType) == Some(p.petType)
  {
    ProductForm(p.code, p.name, PetTypeName(p.petType), p.breed, p.age, p.gender, p.description,
                p.price, p.status, None, false)
  }

  /** `new ProductForm()` marked as a new product; its null strings are empty here. */
  const NEW_PRODUCT_FORM: ProductForm := ProductForm("", "", "", "", "", "", "", 0, "", None, true)

  /** GET /admin/product: the form of an existing product, or a blank one for a new product. */
  function ProductFormFor(rows: map<string, Product>, code: string): (f: ProductForm)
    ensures f.newProduct <==> code == "" || code !in rows
    ensures f.newProduct ==> f == NEW_PRODUCT_FORM
    ensures !f.newProduct ==>
      && f.code == rows[code].code && f.name == rows[code].name && f.price == rows[code].price
      && f.breed == rows[code].breed && f.age == rows[code].age && f.gender == rows[code].gender
      && f.description == rows[code].description && f.status == rows[code].status
      && ParsePetType(f.petType) == Some(rows[code].petType)
  {
    if code != "" && code in rows then FormOf(rows[code]) else NEW_PRODUCT_FORM
  }

  /** The product productSave builds from a form under `code`, at clock reading `now`, with `imagePath`. */
  function BuiltProduct(code: string, form: ProductForm, petType: PetType, now: Timestamp, imagePath: Option<string>): (p: Product)
    ensures p.code == code && p.createDate == now && p.imagePath == imagePath && p.petType == petType
    ensures p.name == form.name && p.price == form.price && p.breed == form.breed && p.age == form.age
    ensures p.gender == form.gender && p.description == form.description && p.status == form.status
  {
    Product(code, form.name, petType, form.breed, form.age, form.gender, form.description, form.price,
            form.status, now, imagePath)
  }

  /** Saving an unedited edit form reproduces the product, apart from its date and image. */
  lemma FormRoundTrip(p: Product, now: Timestamp)
    ensures BuiltProduct(p.code, FormOf(p), ParsePetType(FormOf(p).petType).value, now, p.imagePath)
      == p.(createDate := now)
  {
  }

  const PASSWORD_MISMATCH: string := "Passwords do not match"
  const BAD_ADMIN_KEY: string := "Invalid admin secret key"
  const EMAIL_TAKEN: string := "Email already exists"

  class AdminController {
    const products: ProductRepository
    const accounts: AccountRepository
    const adminSecretKey: string

    constructor (products: ProductRepository, accounts: AccountRepository, adminSecretKey: string)
      ensures this.products == products && this.accounts == accounts && this.adminSecretKey == adminSecretKey
    {
      this.products := products;
      this.accounts := accounts;
      this.adminSecretKey := adminSecretKey;
    }

    /**
     * POST /admin/account, checked in order: the two passwords must match;
     * the exact role "ROLE_ADMIN" needs the admin secret key; the email must
     * be new. Then the account is stored active, with the encoder's output
     * for the password and the role exactly as submitted. A failing save
     * (`saveError` holding the exception's message) shows the form again
     * with that message.
     */
    method SaveAccount(email: string, password: string, confirmPassword: string, firstName: string,
                       lastName: string, phone: string, role: string, secretKey: Option<string>,
                       encodedPassword: string, saveError: Option<string>)
      returns (v: View, errorMessage: Option<string>)
      modifies accounts`rows
      ensures password != confirmPassword ==>
        v == Render("signup") && errorMessage == Some(PASSWORD_MISMATCH) && accounts.rows == old(accounts.rows)
      ensures password == confirmPassword && role == ROLE_ADMIN && secretKey != Some(adminSecretKey) ==>
        v == Render("signup") && errorMessage == Some(BAD_ADMIN_KEY) && accounts.rows == old(accounts.rows)
      ensures password == confirmPassword && (role != ROLE_ADMIN || secretKey == Some(adminSecretKey)) ==>
        if email in old(accounts.rows) then
          v == Render("signup") && errorMessage == Some(EMAIL_TAKEN) && accounts.rows == old(accounts.rows)
        else if saveError.Some? then
          v == Render("signup") && errorMessage == saveError && accounts.rows == old(accounts.rows)
        else
          && v == Redirect("/admin/login") && errorMessage.None?
          && accounts.rows == old(accounts.rows)[email := Account(email, encodedPassword, firstName, lastName, phone, role, true)]
      ensures forall e :: e in accounts.rows && accounts.rows[e].role == ROLE_ADMIN ==>
        (e in old(accounts.rows) && accounts.rows[e] == old(accounts.rows)[e]) || secretKey == Some(adminSecretKey)
    {
      if password != confirmPassword {
        return Render("signup"), Some(PASSWORD_MISMATCH);
      }
      if role == ROLE_ADMIN && secretKey != Some(adminSecretKey) {
        return Render("signup"), Some(BAD_ADMIN_KEY);
      }
      if email in accounts.rows {
        return Render("signup"), Some(EMAIL_TAKEN);
      }
      if saveError.Some? {
        return Render("signup"), saveError;
      }
      var account := Account(email, encodedPassword, firstName, lastName, phone, role, true);
      accounts.rows := accounts.rows[email := account];
      v := Redirect("/admin/login");
      errorMessage := None;
    }

    /** POST /admin/validate-secret-key: whether the request's "secretKey" is the admin key. */
    function ValidateSecretKey(request: map<string, string>): (valid: bool)
      ensures valid ==> "secretKey" in request && request["secretKey"] == adminSecretKey
      ensures !valid ==> "secretKey" !in request || request["secretKey"] != adminSecretKey
    {
      "secretKey" in request && adminSecretKey == request["secretKey"]
    }

    /**
     * POST /admin/product. A form with binding errors is shown again. A new
     * product gets a freshly drawn code, an edit keeps the form's code; an
     * unknown pet type name shows the form again with the exception's text.
     * The product is stored with createDate `now` whether new or not. An
     * upload, written as "<second>_<original name>" (`ioError` holding the
     * message of a failed copy), is recorded under /uploads/; an edit without
     * one keeps the stored product's image, a new product without one has
     * none. A failing repository save (`saveError` holding the exception's
     * message) shows the form again with that message. The drawing loop only
     * ends on a free code, so a new product needs a draw stream that reaches
     * one.
     */
    method ProductSave(form: ProductForm, hasErrors: bool, draws: seq<int>, now: Timestamp,
                       first: nat, second: nat, ioError: Option<string>, saveError: Option<string>)
      returns (v: View, errorMessage: Option<string>)
      requires products.Valid()
      requires AllDraws(draws)
      requires form.newProduct && !hasErrors ==> FirstFreeCode(draws, products.rows).Some?
      modifies products`rows
      ensures products.Valid()
      ensures hasErrors ==> v == Render("product") && errorMessage.None? && products.rows == old(products.rows)
      ensures !hasErrors && ParsePetType(form.petType).None? ==>
        && v == Render("product") && errorMessage == Some(PET_TYPE_PREFIX + form.petType)
        && products.rows == old(products.rows)
      ensures !hasErrors && ParsePetType(form.petType).Some? && HasFile(form.fileData) && ioError.Some? ==>
        v == Render("product") && errorMessage == Some(ioError.value) && products.rows == old(products.rows)
      ensures !hasErrors && ParsePetType(form.petType).Some? && !(HasFile(form.fileData) && ioError.Some?)
              && saveError.Some? ==>
        v == Render("product") && errorMessage == saveError && products.rows == old(products.rows)
      ensures !hasErrors && ParsePetType(form.petType).Some? && !(HasFile(form.fileData) && ioError.Some?)
              && saveError.None? ==>
        && v == Redirect("/productList") && errorMessage.None?
        && var code := if form.newProduct then FirstFreeCode(draws, old(products.rows)).value else form.code;
           var imagePath :=
             if HasFile(form.fileData) then Some("/uploads/" + AdminUploadName(first, second, form.fileData.value.originalFilename))
             else if !form.newProduct && code in old(products.rows) then old(products.rows)[code].imagePath
             else None;
           && (form.newProduct ==> code !in old(products.rows) && IsGeneratedCode(code))
           && products.rows == old(products.rows)[code := BuiltProduct(code, form, ParsePetType(form.petType).value, now, imagePath)]
    {
      if hasErrors {
        return Render("product"), None;
      }
      var code := form.code;
      if form.newProduct {
        var drawn := GenerateProductCode(products, draws);
        code := drawn.value;
      }
      var petType := ParsePetType(form.petType);
      if petType.None? {
        return Render("product"), Some(PET_TYPE_PREFIX + form.petType);
      }
      var imagePath: Option<string> := None;
      if HasFile(form.fileData) {
        if ioError.Some? {
          return Render("product"), Some(ioError.value);
        }
        var fileName := AdminUploadName(first, second, form.fileData.value.originalFilename);
        imagePath := Some("/uploads/" + fileName);
      } else if !form.newProduct {
        if code in products.rows {
          imagePath := products.rows[code].imagePath;
        }
      }
      if saveError.Some? {
        return Render("product"), saveError;
      }
      var product := BuiltProduct(code, form, petType.value, now, imagePath);
      products.rows := products.rows[code := product];
      v := Redirect("/productList");
      errorMessage := None;
    }

    /**
     * POST /admin/product/delete: the repository's deleteById, called
     * directly, so none of ProductDAO.delete's guards (blank or unknown code,
     * order references, image file) apply. The page always goes back to the
     * product list; a failing delete (`deleteError` holding the exception's
     * message) becomes the error message and removes nothing.
     */
    method ProductDelete(code: string, deleteError: Option<string>) returns (v: View, errorMessage: Option<string>)
      modifies products`rows
      ensures v == Redirect("/productList")
      ensures deleteError.Some? ==> errorMessage == deleteError && products.rows == old(products.rows)
      ensures deleteError.None? ==> errorMessage.None? && products.rows == old(products.rows) - {code}
    {
      if deleteError.Some? {
        return Redirect("/productList"), deleteError;
      }
      products.rows := products.rows - {code};
      v := Redirect("/productList");
      errorMessage := None;
    }
  }
}
