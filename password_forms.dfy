/**
 * The two password-change forms of the dashboards. The admin's form,
 * src/backend/dashboards/admindash/components/AdminProfileSettings.jsx, collects an error
 * per field and clears a field's error as soon as it is typed into. The user's form,
 * src/backend/dashboards/userdash/components/AccountSettings.jsx, stops at the first failed
 * check and shows one message. Whether the server accepted a request is the parameter
 * `accepted`; a request the form sends is recorded in `sent`.
 */
module PasswordForms {
  import opened Wrappers
  import opened Text
  import opened Auth
  import opened Users
  import AccountRoutes

  const MinLength: nat := 6

  const CurrentField: string := "currentPassword"
  const NewField: string := "newPassword"
  const ConfirmField: string := "confirmPassword"

  /** The three fields of the admin's form. */
  datatype AdminPasswords = AdminPasswords(current: string, proposed: string, confirm: string)

  /** The error the admin's form shows under the new password, if any. */
  function NewPasswordError(p: AdminPasswords): (r: Option<string>)
    ensures r.None? <==> p.proposed != "" && |p.proposed| >= MinLength && p.proposed != p.current
  {
    if p.proposed == "" then Some("New password is required")
    else if |p.proposed| < MinLength then Some("Password must be at least 6 characters")
    else if p.proposed == p.current then Some("New password must be different from current password")
    else None
  }

  /** The error the admin's form shows under the confirmation, if any. */
  function ConfirmError(p: AdminPasswords): (r: Option<string>)
    ensures r.None? <==> p.confirm != "" && p.confirm == p.proposed
  {
    if p.confirm == "" then Some("Please confirm your password")
    else if p.proposed != p.confirm then Some("Passwords do not match")
    else None
  }

  /** `handlePasswordSubmit`'s error object: one entry for each field that fails its check. */
  function PasswordErrors(p: AdminPasswords): (errors: map<string, string>)
    ensures CurrentField in errors <==> p.current == ""
    ensures NewField in errors <==> NewPasswordError(p).Some?
    ensures ConfirmField in errors <==> ConfirmError(p).Some?
    ensures errors.Keys <= {CurrentField, NewField, ConfirmField}
    ensures forall f :: f in errors ==> errors[f] != ""
  {
    var e0: map<string, string> := if p.current == "" then map[CurrentField := "Current password is required"] else map[];
    var e1 := if NewPasswordError(p).Some? then e0[NewField := NewPasswordError(p).value] else e0;
    if ConfirmError(p).Some? then e1[ConfirmField := ConfirmError(p).value] else e1
  }

  /** The form is submitted exactly when all three fields are filled, the new one long enough, new and different, and confirmed. */
  lemma NoErrorsMeansValid(p: AdminPasswords)
    ensures PasswordErrors(p) == map[] <==>
      p.current != "" && |p.proposed| >= MinLength && p.proposed != p.current && p.confirm == p.proposed
  {
    if PasswordErrors(p) != map[] {
      var f :| f in PasswordErrors(p);
    }
  }

  const Changed: string := "Password changed successfully!"
  const ChangeFailed: string := "Failed to change password"

  /** A server error that names the current password is shown under that field instead of as a message. */
  predicate AboutCurrentPassword(serverError: Option<string>) {
    Truthy(serverError) && Includes(ToLower(serverError.value), "current password")
  }

  /**
   * The admin's password form state: the fields, the per-field errors, the page message,
   * whether the form is open, and the changes sent.
   */
  class AdminPasswordForm {
    var data: AdminPasswords
    var errors: map<string, string>
    var message: Option<string>
    var open: bool
    var sent: seq<AdminPasswords>

    constructor ()
      ensures data == AdminPasswords("", "", "") && errors == map[] && message.None? && !open && sent == []
    {
      data, errors, message, open, sent := AdminPasswords("", "", ""), map[], None, false, [];
    }

    /** The "Change Password" / "Cancel Password Change" button: show or hide the form, keeping what was typed. */
    method Toggle()
      modifies this
      ensures open == !old(open)
      ensures data == old(data) && errors == old(errors) && message == old(message) && sent == old(sent)
    {
      open := !open;
    }

    /** `handlePasswordChange`: the field takes the value, and only that field's error is cleared. */
    method Type(field: string, value: string)
      modifies this
      ensures field == CurrentField ==> data == old(data).(current := value)
      ensures field == NewField ==> data == old(data).(proposed := value)
      ensures field == ConfirmField ==> data == old(data).(confirm := value)
      ensures field !in {CurrentField, NewField, ConfirmField} ==> data == old(data)
      ensures field in old(errors) && old(errors)[field] != "" ==> errors == old(errors) - {field}
      ensures !(field in old(errors) && old(errors)[field] != "") ==> errors == old(errors)
      ensures message == old(message) && open == old(open) && sent == old(sent)
    {
      if field == CurrentField {
        data := data.(current := value);
      } else if field == NewField {
        data := data.(proposed := value);
      } else if field == ConfirmField {
        data := data.(confirm := value);
      }
      if field in errors && errors[field] != "" {
        errors := errors - {field};
      }
    }

    /**
     * `handlePasswordSubmit`: with any error the errors are shown and nothing is sent;
     * otherwise the change is sent. Once accepted the fields are emptied and the form closes;
     * a refusal naming the current password is shown under that field, any other as the message.
     */
    method Submit(accepted: bool, serverError: Option<string>)
      modifies this
      ensures PasswordErrors(old(data)) != map[] ==>
        errors == PasswordErrors(old(data)) && sent == old(sent) && data == old(data)
        && message == old(message) && open == old(open)
      ensures PasswordErrors(old(data)) == map[] ==> sent == old(sent) + [old(data)]
      ensures PasswordErrors(old(data)) == map[] && accepted ==>
        data == AdminPasswords("", "", "") && errors == map[] && message == Some(Changed) && !open
      ensures PasswordErrors(old(data)) == map[] && !accepted ==>
        data == old(data) && open == old(open)
        && (AboutCurrentPassword(serverError) ==>
              errors == map[CurrentField := serverError.value] && message.None?)
        && (!AboutCurrentPassword(serverError) ==>
              errors == map[] && message == Some(OrElse(serverError, ChangeFailed)))
    {
      var e := PasswordErrors(data);
      if e != map[] {
        errors := e;
        return;
      }
      errors := map[];
      message := None;
      sent := sent + [data];
      if accepted {
        message := Some(Changed);
        data := AdminPasswords("", "", "");
        errors := map[];
        open := false;
      } else if AboutCurrentPassword(serverError) {
        errors := map[CurrentField := serverError.value];
      } else {
        message := Some(OrElse(serverError, ChangeFailed));
      }
    }
  }

  /** The user's form's messages. */
  const AllRequired: string := "All password fields are required"
  const Mismatch: string := "New passwords do not match"
  const TooShort: string := "New password must be at least 6 characters"

  /** The user's form's checks, in their order: all filled, then matching, then long enough. */
  function UserPasswordError(oldPassword: string, newPassword: string, confirmPassword: string): (r: Option<string>)
    ensures r == Some(AllRequired) <==> oldPassword == "" || newPassword == "" || confirmPassword == ""
    ensures r == Some(Mismatch) <==>
      oldPassword != "" && newPassword != "" && confirmPassword != "" && newPassword != confirmPassword
    ensures r == Some(TooShort) <==>
      oldPassword != "" && newPassword != "" && confirmPassword != "" && newPassword == confirmPassword
      && |newPassword| < MinLength
    ensures r.None? <==>
      oldPassword != "" && confirmPassword == newPassword && |newPassword| >= MinLength
  {
    if oldPassword == "" || newPassword == "" || confirmPassword == "" then Some(AllRequired)
    else if newPassword != confirmPassword then Some(Mismatch)
    else if |newPassword| < MinLength then Some(TooShort)
    else None
  }

  /**
   * A request the user's form lets through never fails the server's field checks: for a
   * signed-in user other than the super admin, `PUT /change-password` can only answer it
   * with success, 404 or a wrong-password 401, never 400.
   */
  lemma UserFormPassesServerChecks(users: map<nat, UserRow>, user: Payload, oldPassword: string, newPassword: string,
                                   confirmPassword: string, matches: (string, string) -> bool)
    requires UserPasswordError(oldPassword, newPassword, confirmPassword).None?
    requires IdTruthy(user.id) && !IsSuperAdmin(user)
    ensures AccountRoutes.PasswordChangeError(users, user, Some(oldPassword), Some(newPassword), matches)
      in {None, Some(AccountRoutes.NotFound), Some(AccountRoutes.Unauthorized)}
  {
  }

  /** The user's password form state: the three fields, the shown message and the sent changes. */
  class UserPasswordForm {
    var oldPassword: string
    var newPassword: string
    var confirmPassword: string
    var message: Option<string>
    var sent: seq<(string, string)>

    constructor ()
      ensures oldPassword == "" && newPassword == "" && confirmPassword == "" && message.None? && sent == []
    {
      oldPassword, newPassword, confirmPassword, message, sent := "", "", "", None, [];
    }

    /**
     * `handlePasswordSubmit`: a failed check shows its message and sends nothing; otherwise the
     * change is sent; once accepted the success is shown and all three fields are emptied, and
     * otherwise the server's error, or a generic one when it gives none, is shown.
     */
    method Submit(accepted: bool, serverError: Option<string>)
      modifies this
      ensures var e := UserPasswordError(old(oldPassword), old(newPassword), old(confirmPassword));
        e.Some? ==> (message == e && sent == old(sent) && oldPassword == old(oldPassword)
                     && newPassword == old(newPassword) && confirmPassword == old(confirmPassword))
      ensures var e := UserPasswordError(old(oldPassword), old(newPassword), old(confirmPassword));
        e.None? ==> sent == old(sent) + [(old(oldPassword), old(newPassword))]
      ensures var e := UserPasswordError(old(oldPassword), old(newPassword), old(confirmPassword));
        e.None? && accepted ==> (oldPassword == "" && newPassword == "" && confirmPassword == ""
                                 && message == Some(Changed))
      ensures var e := UserPasswordError(old(oldPassword), old(newPassword), old(confirmPassword));
        e.None? && !accepted ==> (message == Some(OrElse(serverError, ChangeFailed)) && oldPassword == old(oldPassword)
                                  && newPassword == old(newPassword) && confirmPassword == old(confirmPassword))
    {
      if oldPassword == "" || newPassword == "" || confirmPassword == "" {
        message := Some(AllRequired);
        return;
      }
      if newPassword != confirmPassword {
        message := Some(Mismatch);
        return;
      }
      if |newPassword| < MinLength {
        message := Some(TooShort);
        return;
      }
      sent := sent + [(oldPassword, newPassword)];
      if accepted {
        message := Some(Changed);
        oldPassword, newPassword, confirmPassword := "", "", "";
      } else {
        message := Some(OrElse(serverError, ChangeFailed));
      }
    }
  }
}
