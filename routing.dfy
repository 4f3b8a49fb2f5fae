/** The client's route table and its guard (client/src/app/App.jsx and
    client/src/app/auth/ProtectedRoute.jsx): which pages each role may
    open, where the guard sends everyone else, and the landing page for a
    path the table does not know. Paths are named by the page they lead
    to; `Unknown` is any path the table does not list. */
module Routing {
  import opened Common
  import opened UserModel

  /** The pages of the table, the two open pages, and any other path. */
  datatype Page =
    | Login | Register
    | Home | Pharmacy | Doctors | Appointments | Organizer | Prescriptions | Orders | OrderDetails | Cart
    | DoctorHome | DoctorProfile | DoctorSlots | DoctorAppointments | DoctorPrescriptions
    | AdminHome | AdminUsers | AdminDoctors | AdminMedicines | AdminOrders | AdminSubscriptions | AdminPreview
    | Settings
    | Unknown(path: string)

  /** The path each page is mounted at. */
  function PathOf(p: Page): string
  {
    match p
    case Login => "/login"
    case Register => "/register"
    case Home => "/"
    case Pharmacy => "/pharmacy"
    case Doctors => "/doctors"
    case Appointments => "/appointments"
    case Organizer => "/organizer"
    case Prescriptions => "/prescriptions"
    case Orders => "/orders"
    case OrderDetails => "/orders/:id"
    case Cart => "/cart"
    case DoctorHome => "/doctor"
    case DoctorProfile => "/doctor/profile"
    case DoctorSlots => "/doctor/slots"
    case DoctorAppointments => "/doctor/appointments"
    case DoctorPrescriptions => "/doctor/prescriptions"
    case AdminHome => "/admin"
    case AdminUsers => "/admin/users"
    case AdminDoctors => "/admin/doctors"
    case AdminMedicines => "/admin/medicines"
    case AdminOrders => "/admin/orders"
    case AdminSubscriptions => "/admin/subscriptions"
    case AdminPreview => "/admin/preview"
    case Settings => "/settings"
    case Unknown(path) => path
  }

  /** The auth state the guard reads: still loading the session, and the
      signed-in user's role if any. */
  datatype Session = Session(loading: bool, user: Option<Role>)

  /** What a route shows: the loading placeholder, a redirect, or the
      page itself. */
  datatype Decision = ShowLoading | RedirectTo(target: Page) | Render

  /** `ProtectedRoute` as written: the placeholder while loading, the login
      page without a user, the home page for a role the route does not
      list, else the page. `None` for `roles` admits every role. */
  function Guard(s: Session, roles: Option<seq<Role>>): (d: Decision)
    ensures s.loading ==> d == ShowLoading
    ensures !s.loading && s.user.None? ==> d == RedirectTo(Login)
    ensures !s.loading && s.user.Some? ==>
      d == (if roles.None? || s.user.value in roles.value then Render else RedirectTo(Home))
  {
    if s.loading then ShowLoading
    else if s.user.None? then RedirectTo(Login)
    else if roles.Some? && s.user.value !in roles.value then RedirectTo(Home)
    else Render
  }

  /** The roles each guarded page lists; None for the open pages and for
      paths the table does not have. */
  function RolesOf(p: Page): (r: Option<seq<Role>>)
    ensures r.None? <==> p.Login? || p.Register? || p.Unknown?
  {
    match p
    case Login => None
    case Register => None
    case Unknown(_) => None
    case OrderDetails => Some([UserRole, AdminRole])
    case Settings => Some([UserRole, DoctorRole, AdminRole])
    case DoctorHome => Some([DoctorRole])
    case DoctorProfile => Some([DoctorRole])
    case DoctorSlots => Some([DoctorRole])
    case DoctorAppointments => Some([DoctorRole])
    case DoctorPrescriptions => Some([DoctorRole])
    case AdminHome => Some([AdminRole])
    case AdminUsers => Some([AdminRole])
    case AdminDoctors => Some([AdminRole])
    case AdminMedicines => Some([AdminRole])
    case AdminOrders => Some([AdminRole])
    case AdminSubscriptions => Some([AdminRole])
    case AdminPreview => Some([AdminRole])
    case _ => Some([UserRole])
  }

  /** `defaultLanding()`: the login page without a user, else the role's
      home. It does not wait for the session to load. */
  function DefaultLanding(user: Option<Role>): (p: Page)
    ensures user.None? ==> p == Login
    ensures user == Some(AdminRole) ==> p == AdminHome
    ensures user == Some(DoctorRole) ==> p == DoctorHome
    ensures user == Some(UserRole) ==> p == Home
  {
    if user.None? then Login
    else if user.value == AdminRole then AdminHome
    else if user.value == DoctorRole then DoctorHome
    else Home
  }

  /** Opening a page as written: the login and sign-up pages are open; a
      page of the table passes the shell's guard (no roles) and then its
      own; any other path redirects to the default landing. */
  function Visit(s: Session, p: Page): Decision
  {
    if p.Login? || p.Register? then Render
    else if p.Unknown? then RedirectTo(DefaultLanding(s.user))
    else if Guard(s, None) != Render then Guard(s, None)
    else Guard(s, RolesOf(p))
  }

  /** Without a user every guarded page sends to the login page; a
      signed-in user whose session has loaded sees a guarded page exactly
      when it lists the user's role, and is otherwise sent home. */
  lemma VisitSpec(s: Session, p: Page)
    requires RolesOf(p).Some?
    ensures s.loading ==> Visit(s, p) == ShowLoading
    ensures !s.loading && s.user.None? ==> Visit(s, p) == RedirectTo(Login)
    ensures !s.loading && s.user.Some? ==>
      (Visit(s, p) == Render <==> s.user.value in RolesOf(p).value) &&
      (Visit(s, p) != Render ==> Visit(s, p) == RedirectTo(Home))
  {
  }

  /** As written, a doctor or admin sent home is sent home again: the
      guard's redirect target is itself a page that refuses them, so the
      redirect never settles. */
  lemma WrongRoleRedirectLoops(role: Role)
    requires role != UserRole
    ensures Visit(Session(false, Some(role)), Home) == RedirectTo(Home)
    ensures Visit(Session(false, Some(role)), Pharmacy) == RedirectTo(Home)
  {
  }

  /** The guard with the evidently intended fallback: a role the route
      does not list is sent to that role's own landing page. */
  function GuardToLanding(s: Session, roles: Option<seq<Role>>): (d: Decision)
    ensures s.loading ==> d == ShowLoading
    ensures !s.loading && s.user.None? ==> d == RedirectTo(Login)
    ensures !s.loading && s.user.Some? ==>
      d == (if roles.None? || s.user.value in roles.value then Render else RedirectTo(DefaultLanding(s.user)))
  {
    if s.loading then ShowLoading
    else if s.user.None? then RedirectTo(Login)
    else if roles.Some? && s.user.value !in roles.value then RedirectTo(DefaultLanding(s.user))
    else Render
  }

  /** Opening a page with the corrected guard. */
  function VisitToLanding(s: Session, p: Page): Decision
  {
    if p.Login? || p.Register? then Render
    else if p.Unknown? then RedirectTo(DefaultLanding(s.user))
    else if GuardToLanding(s, None) != Render then GuardToLanding(s, None)
    else GuardToLanding(s, RolesOf(p))
  }

  /** With the corrected guard, once the session has loaded every redirect
      settles in one step: its target renders. */
  lemma RedirectsSettle(s: Session, p: Page)
    requires !s.loading
    ensures VisitToLanding(s, p).RedirectTo? ==> VisitToLanding(s, VisitToLanding(s, p).target) == Render
  {
  }
}
