/**
  The pure helpers of the landing page: turning company profiles from the API
  into the records the company list shows, the company logo URL, the status
  label and badge classes, the messages shown when a fetch fails, the
  testimonial carousel's index arithmetic, the pagination guards and the
  projection of a job vacancy onto a job card.

  Fields the API may send as `null` (or leave out) are `Option`s. The browser
  functions `encodeURIComponent` and `toLocaleDateString("id-ID")` are
  parameters, so every statement here holds whatever they compute.
*/
module LandingPage {
  import opened Wrappers
  import opened Text

  /** JavaScript truthiness of a possibly missing string: present and non-empty. */
  predicate Truthy(s: Option<string>) {
    s.Some? && s.value != ""
  }

  /** `a || b` with a string default. */
  function OrDefault(a: Option<string>, b: string): (r: string)
    ensures Truthy(a) ==> r == a.value
    ensures !Truthy(a) ==> r == b
  {
    if Truthy(a) then a.value else b
  }

  /** `a ?? b`: the default replaces only a missing value, an empty string stays. */
  function Nullish(a: Option<string>, b: string): (r: string)
    ensures a.Some? ==> r == a.value
    ensures a.None? ==> r == b
  {
    if a.Some? then a.value else b
  }

  // ---------------------------------------------------------------------
  // Companies

  /** A `PerusahaanProfile` from the API, reduced to the fields the page reads. */
  datatype Profile = Profile(
    id: int,
    logo: Option<string>,
    logoUrl: Option<string>,
    name: Option<string>,
    industry: Option<string>,
    founded: Option<string>,
    employees: Option<string>,
    description: Option<string>,
    phone: Option<string>,
    website: Option<string>,
    address: Option<string>,
    verification: Option<string>,
    userEmail: Option<string>,
    createdAt: Option<string>)

  datatype CompanyStatus = Active | Inactive | Pending

  /** The status as the string the label and badge helpers switch on. */
  function StatusName(st: CompanyStatus): string {
    match st
    case Active => "active"
    case Inactive => "inactive"
    case Pending => "pending"
  }

  /** A `Company` record of the company list. */
  datatype Company = Company(
    id: int,
    name: string,
    email: string,
    phone: string,
    address: string,
    description: Option<string>,
    status: CompanyStatus,
    createdAt: Option<string>,
    employees: Option<string>,
    logo: Option<string>,
    industry: Option<string>,
    founded: Option<string>,
    website: Option<string>)

  /** The verification status of the API mapped onto the three company statuses. */
  function StatusOf(verification: Option<string>): CompanyStatus {
    if verification == Some("terverifikasi") then Active
    else if verification == Some("ditolak") then Inactive
    else Pending
  }

  /** One profile transformed, with `toLocaleDateString("id-ID")` as `formatDate`. */
  function ToCompany(p: Profile, formatDate: string -> string): Company {
    Company(
      p.id,
      OrDefault(p.name, "Tidak Diketahui"),
      OrDefault(p.userEmail, "tidak tersedia"),
      OrDefault(p.phone, "Tidak tersedia"),
      OrDefault(p.address, "Tidak tersedia"),
      p.description,
      StatusOf(p.verification),
      if Truthy(p.createdAt) then Some(formatDate(p.createdAt.value)) else None,
      p.employees,
      if Truthy(p.logoUrl) then p.logoUrl else p.logo,
      p.industry,
      p.founded,
      p.website)
  }

  /** `transformApiResponseToCompany`: the profiles transformed one by one, in order. */
  function TransformCompanies(ps: seq<Profile>, formatDate: string -> string): (r: seq<Company>)
    ensures |r| == |ps|
    ensures forall i :: 0 <= i < |ps| ==> r[i] == ToCompany(ps[i], formatDate)
  {
    if ps == [] then [] else [ToCompany(ps[0], formatDate)] + TransformCompanies(ps[1..], formatDate)
  }

  /** The transformation keeps the length and every id, so the list keys are those of the API. */
  lemma TransformKeepsIds(ps: seq<Profile>, formatDate: string -> string)
    ensures var r := TransformCompanies(ps, formatDate);
      |r| == |ps| && forall i :: 0 <= i < |ps| ==> r[i].id == ps[i].id
  {
  }

  /**
    The fields of one transformed company: "terverifikasi" is active,
    "ditolak" inactive and anything else, a missing status included, pending;
    a missing or empty name reads "Tidak Diketahui", so no name is empty; the
    logo is `logo_url` when that is non-empty, else `logo`; the creation date
    is formatted only when present.
  */
  lemma CompanyFields(p: Profile, formatDate: string -> string)
    ensures var c := ToCompany(p, formatDate);
      && (c.status == Active <==> p.verification == Some("terverifikasi"))
      && (c.status == Inactive <==> p.verification == Some("ditolak"))
      && (c.status == Pending <==> p.verification != Some("terverifikasi") && p.verification != Some("ditolak"))
      && (Truthy(p.name) ==> c.name == p.name.value)
      && (!Truthy(p.name) ==> c.name == "Tidak Diketahui")
      && c.name != ""
      && c.email != "" && c.phone != "" && c.address != ""
      && (Truthy(p.logoUrl) ==> c.logo == p.logoUrl)
      && (!Truthy(p.logoUrl) ==> c.logo == p.logo)
      && (c.createdAt.Some? <==> Truthy(p.createdAt))
  {
  }

  // ---------------------------------------------------------------------
  // Status label and badge

  const BaseClasses: string := "px-2 py-1 rounded-full text-xs font-medium"

  /** `getStatusLabel`. */
  function StatusLabel(status: string): (r: string)
    ensures r != ""
  {
    if status == "active" then "Terverifikasi"
    else if status == "inactive" then "Ditolak"
    else if status == "pending" then "Belum Verifikasi"
    else "Tidak Diketahui"
  }

  /** `getStatusBadge`: the shared base classes, a space, then the colours of the status. */
  function StatusBadge(status: string): (r: string)
    ensures StartsWith(r, BaseClasses + " ")
  {
    assert (BaseClasses + " " + Colours(status))[..|BaseClasses + " "|] == BaseClasses + " ";
    BaseClasses + " " + Colours(status)
  }

  /** The colour classes of a status badge. */
  function Colours(status: string): string {
    if status == "active" then Green
    else if status == "inactive" then Red
    else if status == "pending" then Yellow
    else Gray
  }

  const Green: string := "bg-green-100 text-green-800 dark:bg-green-900 dark:text-green-200"
  const Red: string := "bg-red-100 text-red-800 dark:bg-red-900 dark:text-red-200"
  const Yellow: string := "bg-yellow-100 text-yellow-800 dark:bg-yellow-900 dark:text-yellow-200"
  const Gray: string := "bg-gray-100 text-gray-800 dark:bg-gray-700 dark:text-gray-200"

  /** The label tells the four cases apart: each known status has its own label, every other string the unknown one. */
  lemma LabelsDistinct(a: string, b: string)
    requires StatusLabel(a) == StatusLabel(b)
    ensures a in {"active", "inactive", "pending"} || b in {"active", "inactive", "pending"} ==> a == b
  {
  }

  /** A company from the API always has a known text: "Terverifikasi" exactly when it was verified. */
  lemma CompanyLabelKnown(p: Profile, formatDate: string -> string)
    ensures var text := StatusLabel(StatusName(ToCompany(p, formatDate).status));
      && text != "Tidak Diketahui"
      && (text == "Terverifikasi" <==> p.verification == Some("terverifikasi"))
      && (text == "Ditolak" <==> p.verification == Some("ditolak"))
  {
  }

  /** The badges of the three company statuses differ from each other and from the fallback's. */
  lemma BadgesDistinct(a: CompanyStatus, b: CompanyStatus)
    ensures StatusBadge(StatusName(a)) == StatusBadge(StatusName(b)) <==> a == b
    ensures StatusBadge(StatusName(a)) != StatusBadge("unknown")
  {
    ColourLengths();
    assert |StatusBadge(StatusName(a))| == |BaseClasses| + 1 + |Colours(StatusName(a))|;
    assert |StatusBadge(StatusName(b))| == |BaseClasses| + 1 + |Colours(StatusName(b))|;
    assert |StatusBadge("unknown")| == |BaseClasses| + 1 + |Colours("unknown")|;
  }

  /** The colour classes name the colour four times, so they differ in length. */
  lemma ColourLengths()
    ensures |Colours("active")| == 65 && |Colours("inactive")| == 57
    ensures |Colours("pending")| == 69 && |Colours("unknown")| == 61
  {
    assert |Green| == 65 && |Red| == 57 && |Yellow| == 69 && |Gray| == 61;
  }

  // ---------------------------------------------------------------------
  // Logo URL

  const BaseImageUrl: string := "http://localhost:8000/storage"
  const AvatarPrefix: string := "https://ui-avatars.com/api/?name="
  const AvatarSuffix: string := "&length=2"

  /** A logo that counts: present and not blank after trimming. */
  predicate NonBlank(logo: Option<string>) {
    logo.Some? && logo.value != "" && Trim(logo.value) != ""
  }

  /** What `encodeURIComponent` receives: a missing name turns into the string "undefined". */
  function NameArgument(name: Option<string>): string {
    if name.Some? then name.value else "undefined"
  }

  /** `getCompanyLogoUrl`, with `encodeURIComponent` as `encode`. */
  function LogoUrl(logo: Option<string>, name: Option<string>, encode: string -> string): (r: string)
    ensures NonBlank(logo) && StartsWith(logo.value, "http") ==> r == logo.value
    ensures NonBlank(logo) && !StartsWith(logo.value, "http") ==> r == BaseImageUrl + "/" + logo.value
    ensures !NonBlank(logo) ==> r == AvatarPrefix + encode(NameArgument(name)) + AvatarSuffix
  {
    if NonBlank(logo) then
      if StartsWith(logo.value, "http") then logo.value else BaseImageUrl + "/" + logo.value
    else AvatarPrefix + encode(NameArgument(name)) + AvatarSuffix
  }

  lemma PrefixOfAppend(a: string, b: string, p: string)
    requires StartsWith(a, p)
    ensures StartsWith(a + b, p)
  {
    assert (a + b)[..|p|] == a[..|p|];
  }

  /** Every logo URL the helper builds is an absolute http(s) URL. */
  lemma LogoUrlIsAbsolute(logo: Option<string>, name: Option<string>, encode: string -> string)
    ensures StartsWith(LogoUrl(logo, name, encode), "http")
  {
    if NonBlank(logo) {
      if !StartsWith(logo.value, "http") {
        PrefixOfAppend(BaseImageUrl, "/" + logo.value, "http");
        assert BaseImageUrl + "/" + logo.value == BaseImageUrl + ("/" + logo.value);
      }
    } else {
      var e := encode(NameArgument(name));
      PrefixOfAppend(AvatarPrefix, e, "http");
      PrefixOfAppend(AvatarPrefix + e, AvatarSuffix, "http");
    }
  }

  /** Building a URL from a URL the helper built changes nothing: its output is a fixed point. */
  lemma LogoUrlIdempotent(logo: Option<string>, name: Option<string>, encode: string -> string,
                          name2: Option<string>, encode2: string -> string)
    ensures var u := LogoUrl(logo, name, encode);
      LogoUrl(Some(u), name2, encode2) == u
  {
    var u := LogoUrl(logo, name, encode);
    LogoUrlIsAbsolute(logo, name, encode);
    assert u[0] == 'h';
    TrimSlice(u);
    assert !IsSpace(u[0]);
    assert NonBlank(Some(u));
  }

  // ---------------------------------------------------------------------
  // Fetch error messages

  datatype Resource = Jobs | Companies

  /** A failed fetch: an axios error with or without a response (its HTTP status), or any other exception. */
  datatype FetchError = AxiosError(status: Option<int>) | OtherError

  const NotFoundJobs: string := "Data lowongan tidak ditemukan."
  const NotFoundCompanies: string := "Data perusahaan tidak ditemukan."
  const ServerTrouble: string := "Server sedang mengalami gangguan. Silakan coba lagi nanti."
  const SessionEnded: string := "Sesi Anda telah berakhir. Silakan login kembali."
  const NoAccess: string := "Anda tidak memiliki akses untuk melihat data ini."
  const Offline: string := "Tidak dapat terhubung ke server. Periksa koneksi internet Anda."
  const UnknownFailure: string := "Terjadi kesalahan yang tidak diketahui. Silakan refresh halaman."
  const ErrorPrefix: string := "Terjadi kesalahan (Error "
  const ErrorSuffix: string := "). Silakan coba lagi."

  /** The message set as `errorJobs` or `errorCompanies` for a failed fetch. */
  function ErrorMessage(res: Resource, e: FetchError): (r: string)
    ensures r != ""
  {
    match e
    case OtherError => UnknownFailure
    case AxiosError(None) => Offline
    case AxiosError(Some(st)) =>
      if st == 404 then (if res == Jobs then NotFoundJobs else NotFoundCompanies)
      else if st == 500 then ServerTrouble
      else if st == 401 then SessionEnded
      else if st == 403 then NoAccess
      else ErrorPrefix + IntToString(st) + ErrorSuffix
  }

  /** A status without a message of its own. */
  predicate Unlisted(st: int) {
    st != 404 && st != 500 && st != 401 && st != 403
  }

  /** Both fetches share the mapping; only the 404 text names what was not found. */
  lemma ErrorMessagesShared(e: FetchError)
    ensures ErrorMessage(Jobs, e) == ErrorMessage(Companies, e) <==> e != AxiosError(Some(404))
  {
  }

  /** The status code an unlisted-status message quotes, read back from the message. */
  function QuotedStatus(m: string): (r: Option<int>)
  {
    if |ErrorPrefix| + |ErrorSuffix| <= |m| && StartsWith(m, ErrorPrefix)
       && m[|m| - |ErrorSuffix|..] == ErrorSuffix
       && IsNumeral(m[|ErrorPrefix|..|m| - |ErrorSuffix|])
    then Some(ParseInt(m[|ErrorPrefix|..|m| - |ErrorSuffix|]))
    else None
  }

  /** An unlisted status yields a message quoting exactly that status. */
  lemma QuotedStatusRoundTrip(res: Resource, st: int)
    requires Unlisted(st)
    ensures QuotedStatus(ErrorMessage(res, AxiosError(Some(st)))) == Some(st)
  {
    var d := IntToString(st);
    var m := ErrorPrefix + d + ErrorSuffix;
    assert m[..|ErrorPrefix|] == ErrorPrefix;
    assert m[|m| - |ErrorSuffix|..] == ErrorSuffix;
    assert m[|ErrorPrefix|..|m| - |ErrorSuffix|] == d;
    IntToStringRoundTrip(st);
  }

  /** The fixed messages do not end like an unlisted-status message, so they quote no status. */
  lemma FixedMessagesQuoteNothing(res: Resource, e: FetchError)
    requires !(e.AxiosError? && e.status.Some? && Unlisted(e.status.value))
    ensures QuotedStatus(ErrorMessage(res, e)).None?
  {
    var m := ErrorMessage(res, e);
    var k := if e.AxiosError? && e.status.Some? && e.status.value in {500, 401, 403} then 3 else 2;
    assert m[|m| - k] != ErrorSuffix[|ErrorSuffix| - k];
    assert m[|m| - |ErrorSuffix|..][|ErrorSuffix| - k] == m[|m| - k];
  }

  /** Hence a message quoting a status identifies the failure: no other failure reads the same. */
  lemma UnlistedMessageIdentifies(res: Resource, st: int, b: FetchError)
    requires Unlisted(st)
    requires ErrorMessage(res, b) == ErrorMessage(res, AxiosError(Some(st)))
    ensures b == AxiosError(Some(st))
  {
    QuotedStatusRoundTrip(res, st);
    if b.AxiosError? && b.status.Some? && Unlisted(b.status.value) {
      QuotedStatusRoundTrip(res, b.status.value);
    } else {
      FixedMessagesQuoteNothing(res, b);
    }
  }

  // ---------------------------------------------------------------------
  // Testimonial carousel

  /** JavaScript's `%` on integers for a positive divisor: the remainder takes the sign of the dividend. */
  function JsRem(a: int, n: int): (r: int)
    requires n > 0
    ensures -n < r < n
    ensures a >= 0 ==> 0 <= r && r == a % n
  {
    if a >= 0 then a % n else -((-a) % n)
  }

  /**
    `nextTestimonial`: the index as a number that may be `NaN` (`None`); with
    no testimonials `% 0` gives `NaN`, and `NaN` stays `NaN`.
  */
  function NextIndex(i: Option<int>, n: nat): Option<int> {
    if n == 0 || i.None? then None else Some(JsRem(i.value + 1, n))
  }

  /** `prevTestimonial`. */
  function PrevIndex(i: Option<int>, n: nat): Option<int> {
    if n == 0 || i.None? then None else Some(JsRem(i.value - 1 + n, n))
  }

  predicate InRange(i: Option<int>, n: nat) {
    i.Some? && 0 <= i.value < n
  }

  /** Euclidean division is unique: a split of `a` into multiples of `n` and a remainder in range is the one `/` and `%` give. */
  lemma DivModUnique(a: int, n: int, q: int, r: int)
    requires n > 0 && 0 <= r < n && a == q * n + r
    ensures a / n == q && a % n == r
  {
    var q0, r0 := a / n, a % n;
    assert a == q0 * n + r0;
    assert (q - q0) * n == r0 - r;
    if q > q0 {
      MulAtLeast(q - q0, n);
    } else if q < q0 {
      MulAtLeast(q0 - q, n);
    }
  }

  lemma {:induction false} MulAtLeast(x: int, n: int)
    requires x >= 1 && n > 0
    ensures x * n >= n
    decreases x
  {
    if x > 1 {
      MulAtLeast(x - 1, n);
      assert x * n == (x - 1) * n + n;
    }
  }

  /** With testimonials, both steps keep the index in range and undo each other; without, the index is `NaN`. */
  lemma CarouselSteps(i: Option<int>, n: nat)
    ensures n > 0 && InRange(i, n) ==> InRange(NextIndex(i, n), n) && InRange(PrevIndex(i, n), n)
    ensures n > 0 && InRange(i, n) ==> PrevIndex(NextIndex(i, n), n) == i && NextIndex(PrevIndex(i, n), n) == i
    ensures n == 0 ==> NextIndex(i, n).None? && PrevIndex(i, n).None?
  {
    if n > 0 && InRange(i, n) {
      var k := i.value;
      if k + 1 < n {
        DivModUnique(k + 1, n, 0, k + 1);
        DivModUnique(k + n, n, 1, k);
      } else {
        DivModUnique(k + 1, n, 1, 0);
        DivModUnique(n - 1, n, 0, n - 1);
      }
      if k == 0 {
        DivModUnique(n - 1, n, 0, n - 1);
        DivModUnique(n, n, 1, 0);
      } else {
        DivModUnique(k - 1 + n, n, 1, k - 1);
        DivModUnique(k, n, 0, k);
      }
    }
  }

  /** The index after `steps` automatic advances. */
  function Advance(i: Option<int>, n: nat, steps: nat): Option<int> {
    if steps == 0 then i else NextIndex(Advance(i, n, steps - 1), n)
  }

  /** From the first testimonial, the auto-slide shows testimonial `steps mod n` after `steps` ticks. */
  lemma {:induction false} AutoSlide(n: nat, steps: nat)
    requires n > 0
    ensures Advance(Some(0), n, steps) == Some(steps % n)
  {
    if steps > 0 {
      AutoSlide(n, steps - 1);
      ModStep(steps - 1, n);
    }
  }

  /** The remainder of a successor: one more, or back to 0 after `n - 1`. */
  lemma ModStep(a: nat, n: nat)
    requires n > 0
    ensures (a % n + 1) % n == (a + 1) % n
  {
    var q, k := a / n, a % n;
    assert a == q * n + k;
    if k + 1 < n {
      DivModUnique(a + 1, n, q, k + 1);
      DivModUnique(k + 1, n, 0, k + 1);
    } else {
      assert a + 1 == (q + 1) * n + 0;
      DivModUnique(a + 1, n, q + 1, 0);
      DivModUnique(k + 1, n, 1, 0);
    }
  }

  // ---------------------------------------------------------------------
  // Pagination

  /** The `pagination` object of a companies response; a field may be missing or 0. */
  datatype PageInfo = PageInfo(currentPage: Option<int>, lastPage: Option<int>)

  /** `x || 1` on a number: a missing or zero value becomes 1. */
  function OrOne(x: Option<int>): (r: int)
    ensures r != 0
  {
    if x.Some? && x.value != 0 then x.value else 1
  }

  datatype Pages = Pages(current: int, last: int)

  /** The page fields after a successful companies response (`pagination?.current_page || 1`, and the same for the last page). */
  function PagesFrom(info: Option<PageInfo>): (r: Pages)
    ensures info.None? ==> r == Pages(1, 1)
  {
    if info.None? then Pages(1, 1) else Pages(OrOne(info.value.currentPage), OrOne(info.value.lastPage))
  }

  /** `handleNextPage`: the page it asks for, if any. */
  function NextPageRequest(p: Pages): (r: Option<int>) {
    if p.current < p.last then Some(p.current + 1) else None
  }

  /** `handlePrevPage`: the page it asks for, if any. */
  function PrevPageRequest(p: Pages): (r: Option<int>) {
    if p.current > 1 then Some(p.current - 1) else None
  }

  /** The guards: a request only inside `1 .. last`, and only when there is a page to go to. */
  lemma PageGuards(p: Pages)
    ensures NextPageRequest(p).Some? <==> p.current < p.last
    ensures NextPageRequest(p).Some? ==> NextPageRequest(p).value == p.current + 1 <= p.last
    ensures PrevPageRequest(p).Some? <==> p.current > 1
    ensures PrevPageRequest(p).Some? ==> 1 <= PrevPageRequest(p).value == p.current - 1
  {
  }

  /** Without pagination data both fields are 1, and neither button requests a page. */
  lemma NoPaginationNoRequests()
    ensures NextPageRequest(PagesFrom(None)).None? && PrevPageRequest(PagesFrom(None)).None?
  {
  }

  /**
    What the companies request came back with: a successful array response
    (the profiles and the `pagination` object, if any), a response of another
    shape, or a thrown error.
  */
  datatype CompaniesResult = Listed(profiles: seq<Profile>, info: Option<PageInfo>) | Unexpected | Failed(error: FetchError)

  /** The state `fetchCompanies` writes: the companies, `errorCompanies`, the page fields and the loading flag. */
  datatype CompaniesView = CompaniesView(companies: seq<Company>, error: Option<string>, pages: Pages, loading: bool)

  /**
    `fetchCompanies`: the error is reset and loading ends whatever happens; only
    a successful array response replaces the companies and the page fields; a
    response of another shape empties the list and keeps the page fields; a
    thrown error keeps both and sets its message.
  */
  function FetchCompanies(v: CompaniesView, res: CompaniesResult, formatDate: string -> string): (r: CompaniesView)
    ensures !r.loading
    ensures res.Listed? ==> r.companies == TransformCompanies(res.profiles, formatDate) && r.pages == PagesFrom(res.info) && r.error.None?
    ensures res.Unexpected? ==> r.companies == [] && r.pages == v.pages && r.error.None?
    ensures res.Failed? ==> r.companies == v.companies && r.pages == v.pages && r.error == Some(ErrorMessage(Companies, res.error))
  {
    match res
    case Listed(ps, info) => CompaniesView(TransformCompanies(ps, formatDate), None, PagesFrom(info), false)
    case Unexpected => v.(companies := [], error := None, loading := false)
    case Failed(e) => v.(error := Some(ErrorMessage(Companies, e)), loading := false)
  }

  /**
    `handleNextPage` followed by the companies fetch it starts. The fetch asks
    for `/companies` whatever page it is given, so the page fields afterwards
    are those the response reports, if it reports any.
  */
  function NextPage(v: CompaniesView, res: CompaniesResult, formatDate: string -> string): CompaniesView {
    if NextPageRequest(v.pages).Some? then FetchCompanies(v, res, formatDate) else v
  }

  /** `handlePrevPage` followed by the companies fetch it starts. */
  function PrevPage(v: CompaniesView, res: CompaniesResult, formatDate: string -> string): CompaniesView {
    if PrevPageRequest(v.pages).Some? then FetchCompanies(v, res, formatDate) else v
  }

  /**
    After "next" or "previous" the page is the one a successful response
    reports, not `current + 1` or `current - 1`; when that response reports the
    current page again, as a fetch of `/companies` without a page number does,
    neither button moves. A failed or unexpected response keeps the page
    fields of before.
  */
  lemma PageButtonsFollowResponse(v: CompaniesView, res: CompaniesResult, formatDate: string -> string)
    ensures NextPage(v, res, formatDate).pages
      == if v.pages.current < v.pages.last && res.Listed? then PagesFrom(res.info) else v.pages
    ensures PrevPage(v, res, formatDate).pages
      == if v.pages.current > 1 && res.Listed? then PagesFrom(res.info) else v.pages
    ensures var p := v.pages;
      p.current != 0 && p.last != 0 && res.Listed? && res.info == Some(PageInfo(Some(p.current), Some(p.last)))
      ==> NextPage(v, res, formatDate).pages == p && PrevPage(v, res, formatDate).pages == p
    ensures res.Failed? ==>
      NextPage(v, res, formatDate).companies == v.companies && PrevPage(v, res, formatDate).companies == v.companies
  {
  }

  // ---------------------------------------------------------------------
  // Job cards

  /** A `JobVacancy`, reduced to the fields the card reads; `categories` are the `kategori_disabilitas` values. */
  datatype Job = Job(
    id: int,
    title: string,
    jobType: string,
    description: string,
    requirements: Option<string>,
    salary: Option<string>,
    location: string,
    deadline: string,
    skills: seq<string>,
    profile: Option<Profile>,
    categories: seq<string>)

  /** The props handed to `JobCard`, with the detail link. */
  datatype Card = Card(
    id: string,
    title: string,
    company: string,
    location: string,
    salary: string,
    jobType: string,
    description: string,
    requirements: seq<string>,
    logo: string,
    skills: seq<string>,
    accessibility: Option<string>,
    deadline: string,
    urlDetail: string)

  const DetailPath: string := "/cari-kerja/detail/"

  /** One job projected onto a card, with `encodeURIComponent` as `encode`. */
  function ToCard(j: Job, encode: string -> string): Card {
    var name := if j.profile.Some? then j.profile.value.name else None;
    var logo := if j.profile.Some? then j.profile.value.logo else None;
    Card(
      IntToString(j.id),
      j.title,
      Nullish(name, "Unknown Company"),
      j.location,
      OrDefault(j.salary, "Kompetitif"),
      j.jobType,
      j.description,
      if j.requirements.Some? then Split(j.requirements.value, '\n') else [],
      LogoUrl(logo, name, encode),
      j.skills,
      if |j.categories| > 0 then Some(Join(j.categories, ", ")) else None,
      j.deadline,
      DetailPath + IntToString(j.id))
  }

  /** `jobs.slice(0, 6).map(...)`: the cards of the first six jobs, in order. */
  function Cards(jobs: seq<Job>, encode: string -> string): (r: seq<Card>)
    ensures |r| <= 6
    ensures |r| == if |jobs| < 6 then |jobs| else 6
    ensures forall i :: 0 <= i < |r| ==> r[i] == ToCard(jobs[i], encode)
  {
    var shown := if |jobs| < 6 then jobs else jobs[..6];
    seq(|shown|, (i: int) requires 0 <= i < |shown| => ToCard(shown[i], encode))
  }

  /**
    The fields of one card: the salary defaults to "Kompetitif" when missing or
    empty; the company to "Unknown Company" only when missing (an empty name
    stays empty); the requirements are the lines of the text, which join back
    to it; accessibility is present exactly when there are categories; the
    detail link ends in the card's id, which reads back as the job's id.
  */
  lemma CardFields(j: Job, encode: string -> string)
    ensures var c := ToCard(j, encode);
      && (Truthy(j.salary) ==> c.salary == j.salary.value)
      && (!Truthy(j.salary) ==> c.salary == "Kompetitif")
      && (j.profile.None? || j.profile.value.name.None? ==> c.company == "Unknown Company")
      && (j.profile.Some? && j.profile.value.name.Some? ==> c.company == j.profile.value.name.value)
      && (j.requirements.None? ==> c.requirements == [])
      && (j.requirements.Some? ==> |c.requirements| >= 1 && Join(c.requirements, "\n") == j.requirements.value)
      && (forall k :: 0 <= k < |c.requirements| ==> '\n' !in c.requirements[k])
      && (c.accessibility.Some? <==> |j.categories| > 0)
      && (c.accessibility.Some? ==> c.accessibility.value == Join(j.categories, ", "))
      && c.urlDetail == DetailPath + c.id
      && IsNumeral(c.id) && ParseInt(c.id) == j.id
  {
    if j.requirements.Some? {
      JoinSplit(j.requirements.value, '\n');
    }
    IntToStringRoundTrip(j.id);
  }

  /** Jobs with distinct ids give cards with distinct ids and distinct detail links (the list keys). */
  lemma CardIdsDistinct(jobs: seq<Job>, encode: string -> string)
    requires forall a, b :: 0 <= a < b < |jobs| ==> jobs[a].id != jobs[b].id
    ensures var r := Cards(jobs, encode);
      forall a, b :: 0 <= a < b < |r| ==> r[a].id != r[b].id && r[a].urlDetail != r[b].urlDetail
  {
    var r := Cards(jobs, encode);
    forall a, b | 0 <= a < b < |r|
      ensures r[a].id != r[b].id && r[a].urlDetail != r[b].urlDetail
    {
      if r[a].urlDetail == r[b].urlDetail {
        AppendCancel(DetailPath, r[a].id, r[b].id);
      }
      if r[a].id == r[b].id {
        IntToStringInjective(jobs[a].id, jobs[b].id);
      }
    }
  }

  lemma AppendCancel(p: string, x: string, y: string)
    requires p + x == p + y
    ensures x == y
  {
    assert (p + x)[|p|..] == x;
    assert (p + y)[|p|..] == y;
  }

  /** What the vacancies section shows. */
  datatype JobsView = Skeletons(count: nat) | EmptyState | CardGrid(cards: seq<Card>)

  /** The section: six skeletons while loading, the empty state on an error or no jobs, else the cards. */
  function JobsSection(loading: bool, error: Option<string>, jobs: seq<Job>, encode: string -> string): (r: JobsView)
    ensures loading ==> r == Skeletons(6)
    ensures !loading && (Truthy(error) || jobs == []) ==> r == EmptyState
    ensures r.CardGrid? ==> 1 <= |r.cards| <= 6 && |r.cards| <= |jobs|
    ensures r.CardGrid? <==> !loading && !Truthy(error) && jobs != []
    ensures !loading && !Truthy(error) && jobs != [] ==> r == CardGrid(Cards(jobs, encode))
  {
    if loading then Skeletons(6)
    else if Truthy(error) then EmptyState
    else if |jobs| > 0 then CardGrid(Cards(jobs, encode))
    else EmptyState
  }
}
