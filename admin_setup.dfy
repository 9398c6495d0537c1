/** The admin-setup section of the tenant details page: a three-view step machine (the admin
    list, the creation form and the success screen) over a list of client admins that only
    grows. */
module AdminSetup {

  datatype AdminStep = List | Form | Success

  datatype AdminStatus = Active | Invited

  datatype AdminProfile = AdminProfile(
    id: string, firstName: string, lastName: string, email: string, phone: string,
    role: string, status: AdminStatus)

  /** The creation form; the password is typed but never stored with the admin. */
  datatype AdminForm = AdminForm(
    firstName: string, lastName: string, email: string, phone: string, password: string)

  const EmptyAdminForm := AdminForm("", "", "", "", "")

  /** The role every admin created here receives. */
  const ClientAdminRole: string := "Client Admin"

  /** The admin a creation adds: the form's names, email and phone, the client-admin role, invited,
      and never the password. The id is the clock reading, taken from outside. */
  function NewAdmin(form: AdminForm, id: string): (a: AdminProfile)
    ensures a.id == id && a.firstName == form.firstName && a.lastName == form.lastName
    ensures a.email == form.email && a.phone == form.phone
    ensures a.role == ClientAdminRole && a.status == Invited
  {
    AdminProfile(id, form.firstName, form.lastName, form.email, form.phone, ClientAdminRole, Invited)
  }

  /** Where Cancel on the form leads: to the list when there is at least one admin, otherwise the
      form stays. */
  function CancelTarget(adminCount: nat): (step: AdminStep)
    ensures step == List <==> adminCount > 0
    ensures step == Form <==> adminCount == 0
  {
    if adminCount > 0 then List else Form
  }

  class AdminSetupPanel {
    var adminStep: AdminStep
    var admins: seq<AdminProfile>
    var adminForm: AdminForm

    /** Every view other than the form is reached only once an admin exists. */
    ghost predicate Valid()
      reads this
    {
      adminStep != Form ==> |admins| > 0
    }

    constructor ()
      ensures Valid() && adminStep == Form && admins == [] && adminForm == EmptyAdminForm
    {
      adminStep := Form;
      admins := [];
      adminForm := EmptyAdminForm;
    }

    method EditForm(form: AdminForm)
      requires Valid()
      modifies this`adminForm
      ensures Valid() && adminForm == form
    {
      adminForm := form;
    }

    /** Create Admin Account, once its delay has passed: one admin built from the form is
        appended after the existing ones, and the success screen shows. The form is not reset. */
    method CreateAdmin(id: string)
      requires Valid() && adminStep == Form
      modifies this`admins, this`adminStep
      ensures Valid()
      ensures admins == old(admins) + [NewAdmin(adminForm, id)]
      ensures adminStep == Success
    {
      admins := admins + [NewAdmin(adminForm, id)];
      adminStep := Success;
    }

    /** Add New Admin (from the list, the empty list or the success screen): the form is cleared
        and shown; the admins stay. */
    method AddNewClick()
      requires Valid()
      modifies this`adminForm, this`adminStep
      ensures Valid() && adminForm == EmptyAdminForm && adminStep == Form
    {
      adminForm := EmptyAdminForm;
      adminStep := Form;
    }

    /** Cancel on the form. */
    method Cancel()
      requires Valid() && adminStep == Form
      modifies this`adminStep
      ensures Valid() && adminStep == CancelTarget(|admins|)
    {
      adminStep := CancelTarget(|admins|);
    }

    /** Done on the success screen shows the list. */
    method Done()
      requires Valid() && adminStep == Success
      modifies this`adminStep
      ensures Valid() && adminStep == List
    {
      adminStep := List;
    }
  }
}
