/**
 * The persisted entities (the files under src/entities). They refer to one another (a product knows
 * its seller, a seller its account, an account its customer, an order item its order), so they
 * share one module. Ids are assigned by storage on save and are `None` until then; creation
 * and update timestamps, also set by storage, are not modelled.
 */
module Entities {
  import opened Wrappers
  import opened Exceptions
  import opened OrderItemLifecycle

  /** JavaScript truthiness of an optional string argument: `undefined` and `''` are falsy. */
  predicate TruthyString(s: Option<string>)
  {
    s.Some? && s.value != ""
  }

  /** JavaScript truthiness of an optional number argument: `undefined` and `0` are falsy. */
  predicate TruthyNumber(x: Option<real>)
  {
    x.Some? && x.value != 0.0
  }

  /** Account (src/entities/account.entity.ts). */
  class Account {
    var id: Option<int>
    var customer: Option<Customer>
    var seller: Option<Seller>
    var email: string
    var phone: string
    var password: string

    /** Account.of: a new, unsaved account holding the arguments as given; hashing happens later, on insert. */
    constructor Of(email: string, phone: string, password: string)
      ensures this.email == email && this.phone == phone && this.password == password
      ensures id.None? && customer.None? && seller.None?
    {
      this.id := None;
      this.customer := None;
      this.seller := None;
      this.email := email;
      this.phone := phone;
      this.password := password;
    }

    /** Account.update: each field is overwritten only by a truthy argument. */
    method Update(phone: Option<string>, password: Option<string>)
      modifies this`phone, this`password
      ensures this.phone == if TruthyString(phone) then phone.value else old(this.phone)
      ensures this.password == if TruthyString(password) then password.value else old(this.password)
      ensures email == old(email) && id == old(id) && customer == old(customer) && seller == old(seller)
    {
      if TruthyString(phone) {
        this.phone := phone.value;
      }
      if TruthyString(password) {
        this.password := password.value;
      }
    }
  }

  /** Seller (src/entities/seller.entity.ts). */
  class Seller {
    var id: Option<int>
    var account: Account
    var products: Option<seq<Product>>
    var name: string
    var address: string

    /** Seller.of: a new, unsaved seller holding the arguments as given; its products are not loaded. */
    constructor Of(name: string, address: string, account: Account)
      ensures this.name == name && this.address == address && this.account == account
      ensures id.None? && products.None?
    {
      this.id := None;
      this.account := account;
      this.products := None;
      this.name := name;
      this.address := address;
    }

    /** Seller.update: each field is overwritten only by a truthy argument. */
    method Update(name: Option<string>, address: Option<string>)
      modifies this`name, this`address
      ensures this.name == if TruthyString(name) then name.value else old(this.name)
      ensures this.address == if TruthyString(address) then address.value else old(this.address)
      ensures id == old(id) && account == old(account) && products == old(products)
    {
      if TruthyString(name) {
        this.name := name.value;
      }
      if TruthyString(address) {
        this.address := address.value;
      }
    }
  }

  /**
   * Customer (src/entities/customer.entity.ts). The source keeps its fields private behind
   * getters that return them as stored; here the getters are the fields themselves.
   */
  class Customer {
    var id: Option<int>
    var account: Account
    var products: Option<seq<Product>>
    var name: string
    var address: string

    /** Customer.of: a new, unsaved customer holding the arguments as given. */
    constructor Of(name: string, address: string, account: Account)
      ensures this.name == name && this.address == address && this.account == account
      ensures id.None? && products.None?
    {
      this.id := None;
      this.account := account;
      this.products := None;
      this.name := name;
      this.address := address;
    }

    /** The `account` setter: replaces the account and nothing else. */
    method SetAccount(account: Account)
      modifies this`account
      ensures this.account == account
      ensures id == old(id) && name == old(name) && address == old(address) && products == old(products)
    {
      this.account := account;
    }

    /** changeName: overwrites the name unconditionally, the empty string included. */
    method ChangeName(name: string)
      modifies this`name
      ensures this.name == name
      ensures id == old(id) && account == old(account) && address == old(address) && products == old(products)
    {
      this.name := name;
    }

    /** changeAddress: overwrites the address unconditionally; the account is kept. */
    method ChangeAddress(address: string)
      modifies this`address
      ensures this.address == address
      ensures id == old(id) && account == old(account) && name == old(name) && products == old(products)
    {
      this.address := address;
    }
  }

  /** Product (src/entities/product.entity.ts). The price is a JS number, kept as an uninterpreted real. */
  class Product {
    var id: Option<int>
    var seller: Seller
    var name: string
    var description: string
    var price: real
    var quantity: int
    var image: Option<string>

    /** `new Product()` followed by the field assignments of Product.of. */
    constructor (name: string, description: string, price: real, quantity: int, seller: Seller)
      ensures this.name == name && this.description == description && this.price == price
      ensures this.quantity == quantity && this.seller == seller
      ensures id.None? && image.None?
    {
      this.id := None;
      this.seller := seller;
      this.name := name;
      this.description := description;
      this.price := price;
      this.quantity := quantity;
      this.image := None;
    }

    /** Product.of: a product with no stock (zero or negative) is refused with BadRequest. */
    static method Of(name: string, description: string, price: real, quantity: int, seller: Seller)
      returns (r: Result<Product, Exception>)
      ensures r.Failure? <==> quantity <= 0
      ensures r.Failure? ==> r.error == BadRequest
      ensures r.Success? ==> fresh(r.value)
      ensures r.Success? ==> r.value.name == name && r.value.description == description && r.value.price == price
      ensures r.Success? ==> r.value.quantity == quantity && r.value.seller == seller
      ensures r.Success? ==> r.value.id.None? && r.value.image.None?
    {
      if quantity <= 0 {
        return Failure(BadRequest);
      }
      var product := new Product(name, description, price, quantity, seller);
      return Success(product);
    }

    /** Product.update: each field is overwritten only by a truthy argument; stock, seller and id never change. */
    method Update(name: Option<string>, description: Option<string>, price: Option<real>, image: Option<string>)
      modifies this`name, this`description, this`price, this`image
      ensures this.name == if TruthyString(name) then name.value else old(this.name)
      ensures this.description == if TruthyString(description) then description.value else old(this.description)
      ensures this.price == if TruthyNumber(price) then price.value else old(this.price)
      ensures this.image == if TruthyString(image) then image else old(this.image)
      ensures quantity == old(quantity) && seller == old(seller) && id == old(id)
    {
      if TruthyString(name) {
        this.name := name.value;
      }
      if TruthyString(description) {
        this.description := description.value;
      }
      if TruthyNumber(price) {
        this.price := price.value;
      }
      if TruthyString(image) {
        this.image := image;
      }
    }

    /**
     * Product.order: subtracts first and checks afterwards, so an order larger than the stock
     * throws BadRequest with the object already holding a negative quantity.
     */
    method Order(count: int) returns (r: Outcome<Exception>)
      modifies this`quantity
      ensures quantity == old(quantity) - count
      ensures r.Fail? <==> count > old(quantity)
      ensures r.Fail? ==> r.error == BadRequest && quantity < 0
      ensures r.Pass? ==> quantity >= 0
    {
      quantity := quantity - count;
      if quantity < 0 {
        return Fail(BadRequest);
      }
      return Pass;
    }

    /**
     * Product.isQuantityOrderable. The comparison is strict, so it is stricter than order():
     * a count equal to the stock, which order() accepts, is refused, and an orderable count
     * always leaves at least one unit behind.
     */
    function IsQuantityOrderable(count: int): (r: bool)
      reads this
      ensures r ==> quantity - count >= 1
      ensures !r ==> quantity - count <= 0
    {
      quantity > count
    }
  }

  /** OrderItem (src/entities/order-item.entity.ts). */
  class OrderItem {
    var id: Option<int>
    var product: Product
    var order: Option<Order>
    var count: int
    var status: OrderItemStatus

    /** `new OrderItem()` followed by the field assignments of OrderItem.of. */
    constructor (product: Product, count: int)
      ensures this.product == product && this.count == count && status == Pending
      ensures id.None? && order.None?
    {
      this.id := None;
      this.product := product;
      this.order := None;
      this.count := count;
      this.status := Pending;
    }

    /**
     * OrderItem.of: refuses a non-positive count and a count the product cannot cover
     * (isQuantityOrderable), both with BadRequest; otherwise a PENDING item bound to the
     * product. The product's stock is not touched.
     */
    static method Of(product: Product, count: int) returns (r: Result<OrderItem, Exception>)
      ensures r.Success? <==> 0 < count && product.IsQuantityOrderable(count)
      ensures r.Failure? ==> r.error == BadRequest
      ensures r.Success? ==> fresh(r.value)
      ensures r.Success? ==> r.value.product == product && r.value.count == count
      ensures r.Success? ==> r.value.status == Pending && r.value.order.None? && r.value.id.None?
      ensures r.Success? ==> 0 < count < product.quantity
      ensures product.quantity == old(product.quantity)
    {
      if count <= 0 {
        return Failure(BadRequest);
      }
      if !product.IsQuantityOrderable(count) {
        return Failure(BadRequest);
      }
      var item := new OrderItem(product, count);
      return Success(item);
    }

    /** orderProduct: Product.order on the bound product with this item's count. */
    method OrderProduct() returns (r: Outcome<Exception>)
      modifies product`quantity
      ensures product.quantity == old(product.quantity) - count
      ensures r.Fail? <==> count > old(product.quantity)
      ensures r.Fail? ==> r.error == BadRequest
      ensures status == old(status)
    {
      r := product.Order(count);
    }

    /** setOrder: sets the back-reference to the order. */
    method SetOrder(o: Order)
      modifies this`order
      ensures order == Some(o)
      ensures status == old(status) && count == old(count) && product == old(product)
    {
      order := Some(o);
    }

    /** cancle: always cancels and never throws, whatever the status, because its guard is vacuous. */
    method Cancle()
      modifies this`status
      ensures Step(old(status), CancleCall) == Success(status)
      ensures status == Cancelled
      ensures count == old(count) && product == old(product) && order == old(order) && id == old(id)
    {
      status := Cancelled;
    }

    /** changeStatus: throws BadRequest for the targets PENDING and CANCELLED, otherwise assigns the target. */
    method ChangeStatus(target: OrderItemStatus) returns (r: Outcome<Exception>)
      modifies this`status
      ensures Step(old(status), ChangeStatusCall(target)).Success? ==>
                r.Pass? && Step(old(status), ChangeStatusCall(target)) == Success(status)
      ensures Step(old(status), ChangeStatusCall(target)).Failure? ==>
                r == Fail(Step(old(status), ChangeStatusCall(target)).error) && status == old(status)
      ensures count == old(count) && product == old(product) && order == old(order) && id == old(id)
    {
      if target == Pending || target == Cancelled {
        return Fail(BadRequest);
      }
      status := target;
      return Pass;
    }
  }

  /**
   * Order (src/entities/order.entity.ts): a customer and the items, in the order given.
   * After Order.of only the repository save writes it, assigning its id, so it is a value
   * (a save yields the copy with the id set); the id, customer and orderItems getters are its
   * fields.
   */
  datatype Order = Order(id: Option<int>, customer: Customer, orderItems: seq<OrderItem>)
  {
    /** Order.of: holds exactly the given customer and items, unsaved; it calls no method of the items. */
    static function Of(customer: Customer, orderItems: seq<OrderItem>): (o: Order)
      ensures o.customer == customer && o.id.None?
      ensures o.orderItems == orderItems
    {
      Order(None, customer, orderItems)
    }
  }
}
