/**
 * The Python exceptions that escape from the modelled code. Django answers an
 * exception that nobody catches with HTTP 500.
 */
module Exceptions {

  datatype Exception =
    | CodeExpired               // raised by VerifyCode.send for an expired row
    | TypeError                 // a call with arguments the callee does not accept
    | IntegrityError            // an INSERT that breaks a unique or foreign-key constraint
    | DoesNotExist              // Model.objects.get found no row
    | MultipleObjectsReturned   // Model.objects.get found more than one row
    | AttributeError            // reading an attribute the object does not have
    | DjangoValidationError(message: string)  // django.core.exceptions.ValidationError
}
