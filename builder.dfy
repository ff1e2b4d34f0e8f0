// The Builder pattern: each builder holds one product object and fills it in
// step by step; `build` hands out that same object.
module Builder {
  import opened Wrappers
  import Text

  // ---------------------------------------------------------------------
  // HTTP request builder
  // ---------------------------------------------------------------------

  /** A request body: a string or a dictionary. */
  datatype Body = TextBody(text: string) | FieldsBody(fields: map<string, string>)

  /** The fields of an `HttpRequest`, as a value. */
  datatype RequestValue = RequestValue(
    httpMethod: string, url: string, headers: map<string, string>, queryParams: map<string, string>,
    body: Option<Body>, timeout: int, retries: int, authToken: Option<string>)

  /** The value of a fresh `HttpRequest()`. */
  const DefaultRequest := RequestValue("GET", "", map[], map[], None, 30, 0, None)

  const UrlRequired := "URL is required to build an HTTP request"

  class HttpRequest {
    var httpMethod: string
    var url: string
    var headers: map<string, string>
    var queryParams: map<string, string>
    var body: Option<Body>
    var timeout: int
    var retries: int
    var authToken: Option<string>

    constructor ()
      ensures Value() == DefaultRequest
    {
      httpMethod := "GET";
      url := "";
      headers := map[];
      queryParams := map[];
      body := None;
      timeout := 30;
      retries := 0;
      authToken := None;
    }

    function Value(): RequestValue
      reads this
    {
      RequestValue(httpMethod, url, headers, queryParams, body, timeout, retries, authToken)
    }
  }

  class HttpRequestBuilder {
    const request: HttpRequest

    constructor ()
      ensures fresh(request) && request.Value() == DefaultRequest
    {
      request := new HttpRequest();
    }

    /** Stores the method upper-cased. */
    method SetMethod(m: string)
      modifies request
      ensures request.Value() == old(request.Value()).(httpMethod := Text.Upper(m))
    {
      request.httpMethod := Text.Upper(m);
    }

    method SetUrl(url: string)
      modifies request
      ensures request.Value() == old(request.Value()).(url := url)
    {
      request.url := url;
    }

    /** A later value for the same key replaces the earlier one. */
    method AddHeader(key: string, value: string)
      modifies request
      ensures request.Value() == old(request.Value()).(headers := old(request.headers)[key := value])
    {
      request.headers := request.headers[key := value];
    }

    method AddQueryParam(key: string, value: string)
      modifies request
      ensures request.Value() == old(request.Value()).(queryParams := old(request.queryParams)[key := value])
    {
      request.queryParams := request.queryParams[key := value];
    }

    method SetBody(body: Body)
      modifies request
      ensures request.Value() == old(request.Value()).(body := Some(body))
    {
      request.body := Some(body);
    }

    method SetTimeout(seconds: int)
      modifies request
      ensures request.Value() == old(request.Value()).(timeout := seconds)
    {
      request.timeout := seconds;
    }

    method SetRetries(count: int)
      modifies request
      ensures request.Value() == old(request.Value()).(retries := count)
    {
      request.retries := count;
    }

    /** Stores the token and the matching "Authorization" header. */
    method SetAuthToken(token: string)
      modifies request
      ensures request.Value() == old(request.Value()).(
        authToken := Some(token), headers := old(request.headers)["Authorization" := "Bearer " + token])
    {
      request.authToken := Some(token);
      request.headers := request.headers["Authorization" := "Bearer " + token];
    }

    /** Fails exactly when no url was set; otherwise hands out the held request itself. */
    method Build() returns (r: Result<HttpRequest>)
      ensures r.Ok? <==> request.url != ""
      ensures r.Ok? ==> r.value == request
      ensures r.Err? ==> r.error == UrlRequired
    {
      if request.url == "" {
        r := Err(UrlRequired);
      } else {
        r := Ok(request);
      }
    }
  }

  const UsersUrl := "https://api.example.com/users"
  const JsonType := "application/json"
  const DemoToken := "my-secret-token-123"
  const DemoFields := map["name" := "Alice", "email" := "alice@example.com"]

  /** The request the demonstration builds. */
  method DemoRequest() returns (r: Result<HttpRequest>)
    ensures r.Ok?
    ensures r.value.httpMethod == "POST" && r.value.url == UsersUrl
    ensures r.value.headers == map["Content-Type" := JsonType, "Accept" := JsonType, "Authorization" := "Bearer " + DemoToken]
    ensures r.value.queryParams == map[] && r.value.body == Some(FieldsBody(DemoFields))
    ensures r.value.timeout == 10 && r.value.retries == 3 && r.value.authToken == Some(DemoToken)
  {
    var b := new HttpRequestBuilder();
    ghost var v := DefaultRequest;
    Text.UpperKeepsUpper("POST");
    b.SetMethod("POST");
    v := v.(httpMethod := "POST");
    assert b.request.Value() == v;
    b.SetUrl(UsersUrl);
    v := v.(url := UsersUrl);
    b.AddHeader("Content-Type", JsonType);
    v := v.(headers := map["Content-Type" := JsonType]);
    assert b.request.Value() == v;
    b.AddHeader("Accept", JsonType);
    v := v.(headers := v.headers["Accept" := JsonType]);
    assert b.request.Value() == v;
    b.SetBody(FieldsBody(DemoFields));
    v := v.(body := Some(FieldsBody(DemoFields)));
    b.SetAuthToken(DemoToken);
    v := v.(authToken := Some(DemoToken), headers := v.headers["Authorization" := "Bearer " + DemoToken]);
    assert b.request.Value() == v;
    b.SetTimeout(10);
    b.SetRetries(3);
    v := v.(timeout := 10, retries := 3);
    assert b.request.Value() == v;
    r := b.Build();
  }

  // ---------------------------------------------------------------------
  // User profile builder
  // ---------------------------------------------------------------------

  /** The fields of a `UserProfile`, as a value. */
  datatype ProfileValue = ProfileValue(
    username: string, email: string, firstName: string, lastName: string, age: Option<int>,
    phone: string, address: string, bio: string, isPremium: bool, preferences: map<string, string>)

  class UserProfile {
    var username: string
    var email: string
    var firstName: string
    var lastName: string
    var age: Option<int>
    var phone: string
    var address: string
    var bio: string
    var isPremium: bool
    var preferences: map<string, string>

    constructor (username: string, email: string)
      ensures Value() == ProfileValue(username, email, "", "", None, "", "", "", false, map[])
    {
      this.username := username;
      this.email := email;
      firstName := "";
      lastName := "";
      age := None;
      phone := "";
      address := "";
      bio := "";
      isPremium := false;
      preferences := map[];
    }

    function Value(): ProfileValue
      reads this
    {
      ProfileValue(username, email, firstName, lastName, age, phone, address, bio, isPremium, preferences)
    }
  }

  /** Username and email are fixed at construction; no setter touches them. */
  class UserProfileBuilder {
    const profile: UserProfile

    constructor (username: string, email: string)
      ensures fresh(profile)
      ensures profile.Value() == ProfileValue(username, email, "", "", None, "", "", "", false, map[])
    {
      profile := new UserProfile(username, email);
    }

    method SetName(first: string, last: string)
      modifies profile
      ensures profile.Value() == old(profile.Value()).(firstName := first, lastName := last)
    {
      profile.firstName := first;
      profile.lastName := last;
    }

    method SetAge(age: int)
      modifies profile
      ensures profile.Value() == old(profile.Value()).(age := Some(age))
    {
      profile.age := Some(age);
    }

    method SetPhone(phone: string)
      modifies profile
      ensures profile.Value() == old(profile.Value()).(phone := phone)
    {
      profile.phone := phone;
    }

    method SetAddress(address: string)
      modifies profile
      ensures profile.Value() == old(profile.Value()).(address := address)
    {
      profile.address := address;
    }

    method SetBio(bio: string)
      modifies profile
      ensures profile.Value() == old(profile.Value()).(bio := bio)
    {
      profile.bio := bio;
    }

    method SetPremium(isPremium: bool)
      modifies profile
      ensures profile.Value() == old(profile.Value()).(isPremium := isPremium)
    {
      profile.isPremium := isPremium;
    }

    method AddPreference(key: string, value: string)
      modifies profile
      ensures profile.Value() == old(profile.Value()).(preferences := old(profile.preferences)[key := value])
    {
      profile.preferences := profile.preferences[key := value];
    }

    method Build() returns (p: UserProfile)
      ensures p == profile
    {
      p := profile;
    }
  }

  /** The profile the demonstration builds keeps its username and email. */
  method DemoProfile() returns (p: UserProfile)
    ensures p.Value() == ProfileValue(
      "alice_dev", "alice@example.com", "Alice", "Johnson", Some(28), "", "",
      "Full-stack developer who loves Python 🐍", true, map["theme" := "dark", "language" := "en"])
  {
    var b := new UserProfileBuilder("alice_dev", "alice@example.com");
    b.SetName("Alice", "Johnson");
    b.SetAge(28);
    b.SetBio("Full-stack developer who loves Python 🐍");
    b.SetPremium(true);
    b.AddPreference("theme", "dark");
    b.AddPreference("language", "en");
    p := b.Build();
  }

  // ---------------------------------------------------------------------
  // Pizza builder
  // ---------------------------------------------------------------------

  /** The fields of a `Pizza`, as a value. */
  datatype PizzaValue = PizzaValue(
    size: string, crust: string, sauce: string, cheese: string, toppings: seq<string>,
    isExtraCheese: bool, specialInstructions: string)

  const DefaultPizza := PizzaValue("medium", "regular", "tomato", "mozzarella", [], false, "")

  class Pizza {
    var size: string
    var crust: string
    var sauce: string
    var cheese: string
    var toppings: seq<string>
    var isExtraCheese: bool
    var specialInstructions: string

    constructor ()
      ensures Value() == DefaultPizza
    {
      size := "medium";
      crust := "regular";
      sauce := "tomato";
      cheese := "mozzarella";
      toppings := [];
      isExtraCheese := false;
      specialInstructions := "";
    }

    function Value(): PizzaValue
      reads this
    {
      PizzaValue(size, crust, sauce, cheese, toppings, isExtraCheese, specialInstructions)
    }
  }

  class PizzaBuilder {
    const pizza: Pizza

    constructor ()
      ensures fresh(pizza) && pizza.Value() == DefaultPizza
    {
      pizza := new Pizza();
    }

    method SetSize(size: string)
      modifies pizza
      ensures pizza.Value() == old(pizza.Value()).(size := size)
    {
      pizza.size := size;
    }

    method SetCrust(crust: string)
      modifies pizza
      ensures pizza.Value() == old(pizza.Value()).(crust := crust)
    {
      pizza.crust := crust;
    }

    method SetSauce(sauce: string)
      modifies pizza
      ensures pizza.Value() == old(pizza.Value()).(sauce := sauce)
    {
      pizza.sauce := sauce;
    }

    method SetCheese(cheese: string)
      modifies pizza
      ensures pizza.Value() == old(pizza.Value()).(cheese := cheese)
    {
      pizza.cheese := cheese;
    }

    /** Toppings keep the order they were added in, duplicates included. */
    method AddTopping(topping: string)
      modifies pizza
      ensures pizza.Value() == old(pizza.Value()).(toppings := old(pizza.toppings) + [topping])
    {
      pizza.toppings := pizza.toppings + [topping];
    }

    method ExtraCheese()
      modifies pizza
      ensures pizza.Value() == old(pizza.Value()).(isExtraCheese := true)
    {
      pizza.isExtraCheese := true;
    }

    method AddInstructions(notes: string)
      modifies pizza
      ensures pizza.Value() == old(pizza.Value()).(specialInstructions := notes)
    {
      pizza.specialInstructions := notes;
    }

    method Build() returns (p: Pizza)
      ensures p == pizza
    {
      p := pizza;
    }
  }

  /** The pizza the demonstration builds. */
  method DemoPizza() returns (p: Pizza)
    ensures p.Value() == PizzaValue(
      "large", "thin", "bbq", "mozzarella", ["chicken", "onions", "peppers"], true, "Cut into 8 slices please")
  {
    var b := new PizzaBuilder();
    b.SetSize("large");
    b.SetCrust("thin");
    b.SetSauce("bbq");
    b.AddTopping("chicken");
    b.AddTopping("onions");
    b.AddTopping("peppers");
    b.ExtraCheese();
    b.AddInstructions("Cut into 8 slices please");
    p := b.Build();
  }
}
