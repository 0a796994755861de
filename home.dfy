/**
 * The home screen's view model (HomeViewModel): it mirrors the saved
 * simulations and the active credit from the database, keeps the selection
 * mode, forwards "set as active credit" and "delete" to the database, shows
 * the amortization table of a saved simulation and records an available
 * app update.
 */
module Home {
  import opened Model
  import opened LoanMath
  import opened Persistence
  import AmortizationUseCase
  import Calculator

  /**
   * The table the home screen shows for a simulation the calculator
   * computed has one row per month, repays the amount financed and charges
   * exactly the interest total stored with the simulation.
   */
  lemma ShownTableMatchesStoredTotals(s: SavedSimulation, toDoubleOrNull: string -> Option<real>)
    requires Calculator.ComputedByCalculator(s, toDoubleOrNull)
    ensures var t := AmortizationUseCase.Schedule(s.loanAmountToFinance, MonthlyRate(s.interestRate, toDoubleOrNull),
                                                  s.loanTermInMonths, s.monthlyPayment);
      && |t| == s.loanTermInMonths
      && SumPrincipal(t) == s.loanAmountToFinance
      && SumInterest(t) == s.totalInterestPaid
  {
    var rate := MonthlyRate(s.interestRate, toDoubleOrNull);
    var term := s.loanTermInMonths;
    var u := AmortizationUseCase.Schedule(s.loanAmountToFinance, rate, term, s.monthlyPayment);
    var c := Calculator.Table(s.loanAmountToFinance, rate, term, s.monthlyPayment);
    Calculator.UseCaseAgreesWithViewModelTable(s.loanAmountToFinance, rate, term);
    Calculator.AnnuityTable(s.loanAmountToFinance, rate, term);
    Calculator.SameColumnsSameSums(u, c);
  }

  class HomeViewModel {
    var uiState: HomeUiState
    const database: AppDatabase
    /** Kotlin's `String.toDoubleOrNull()`, supplied by the platform. */
    const toDoubleOrNull: string -> Option<real>

    constructor (database: AppDatabase, toDoubleOrNull: string -> Option<real>)
      ensures uiState == InitialHomeUiState
      ensures this.database == database && this.toDoubleOrNull == toDoubleOrNull
    {
      this.database := database;
      this.toDoubleOrNull := toDoubleOrNull;
      uiState := InitialHomeUiState;
    }

    /**
     * The `collect` of `combine(getAllSimulations(), getActiveCredit())`:
     * the list and the active credit are copied in, the onboarding card is
     * shown exactly when there are simulations but none is active, and the
     * selection mode and update notice are kept.
     */
    method OnDatabaseChanged()
      modifies this
      ensures uiState.allSimulations == database.GetAllSimulations()
      ensures uiState.activeCredit == database.GetActiveCredit()
      ensures uiState.showOnboardingCard <==>
        |database.simulations| > 0 && forall k :: k in database.simulations ==> !database.simulations[k].isActiveCredit
      ensures uiState.activeCredit.Some? ==> uiState.activeCredit.value in uiState.allSimulations
      ensures uiState.isInSelectionMode == old(uiState).isInSelectionMode
      ensures uiState.updateAvailableInfo == old(uiState).updateAvailableInfo
    {
      var allSimulations := database.GetAllSimulations();
      var activeCredit := database.GetActiveCredit();
      uiState := uiState.(allSimulations := allSimulations,
                          activeCredit := activeCredit,
                          showOnboardingCard := activeCredit.None? && |allSimulations| > 0);
    }

    method EnterSelectionMode()
      modifies this
      ensures uiState == old(uiState).(isInSelectionMode := true)
    {
      uiState := uiState.(isInSelectionMode := true);
    }

    method ExitSelectionMode()
      modifies this
      ensures uiState == old(uiState).(isInSelectionMode := false)
    {
      uiState := uiState.(isInSelectionMode := false);
    }

    /**
     * `onSetAsActiveCreditClicked`: afterwards the database's active credit
     * is that simulation, as stored, and no other; every other column and
     * every payment stays as it was.
     */
    method OnSetAsActiveCreditClicked(simulation: SavedSimulation)
      requires database.Valid()
      modifies database`simulations
      ensures database.Valid()
      ensures ActiveFlagMovedTo(old(database.simulations), database.simulations, simulation.id)
      ensures unchanged(database`payments, database`simulationSequence, database`paymentSequence)
      ensures AtMostOneActive(database.simulations)
      ensures simulation.id in database.simulations ==>
        database.GetActiveCredit() == Some(old(database.simulations)[simulation.id].(isActiveCredit := true))
      ensures simulation.id !in database.simulations ==> database.GetActiveCredit().None?
    {
      database.SetActiveCredit(simulation.id);
      if simulation.id in database.simulations {
        database.ActiveCreditIs(simulation.id);
      }
    }

    /**
     * `deleteSimulation`: the simulation leaves the list and its payments go
     * with it; every other row and payment stays as it was.
     */
    method DeleteSimulation(simulation: SavedSimulation)
      requires database.Valid()
      modifies database
      ensures database.Valid()
      ensures database.simulations == old(database.simulations) - {simulation.id}
      ensures database.payments == WithoutPaymentsOf(old(database.payments), simulation.id)
      ensures database.simulationSequence == old(database.simulationSequence)
      ensures database.paymentSequence == old(database.paymentSequence)
      ensures forall s :: s in database.GetAllSimulations() ==> s.id != simulation.id
      ensures forall k :: k in database.payments ==> database.payments[k].simulationId != simulation.id
    {
      database.DeleteSimulationById(simulation.id);
    }

    /** `getAmortizationTableForSimulation`: the use case's table for the stored figures. */
    method GetAmortizationTableForSimulation(simulation: SavedSimulation) returns (table: seq<AmortizationEntry>)
      ensures table == AmortizationUseCase.Schedule(simulation.loanAmountToFinance,
                                                    MonthlyRate(simulation.interestRate, toDoubleOrNull),
                                                    simulation.loanTermInMonths, simulation.monthlyPayment)
      ensures Calculator.ComputedByCalculator(simulation, toDoubleOrNull) ==>
        |table| == simulation.loanTermInMonths && SumInterest(table) == simulation.totalInterestPaid
    {
      var monthlyRateDecimal := MonthlyRate(simulation.interestRate, toDoubleOrNull);
      table := AmortizationUseCase.Invoke(simulation.loanAmountToFinance, monthlyRateDecimal,
                                          simulation.loanTermInMonths, simulation.monthlyPayment);
      if Calculator.ComputedByCalculator(simulation, toDoubleOrNull) {
        ShownTableMatchesStoredTotals(simulation, toDoubleOrNull);
      }
    }

    /**
     * The successful branch of `check_for_updates`: the descriptor fetched
     * from the update service is recorded only when it announces a version
     * newer than the installed one.
     */
    method OnUpdateInfoReceived(remoteUpdateInfo: UpdateInfo, currentVersionCode: int)
      modifies this
      ensures remoteUpdateInfo.latestVersionCode > currentVersionCode ==>
        uiState == old(uiState).(updateAvailableInfo := Some(remoteUpdateInfo))
      ensures remoteUpdateInfo.latestVersionCode <= currentVersionCode ==> uiState == old(uiState)
    {
      if remoteUpdateInfo.latestVersionCode > currentVersionCode {
        uiState := uiState.(updateAvailableInfo := Some(remoteUpdateInfo));
      }
    }

    method OnUpdateDialogShown()
      modifies this
      ensures uiState == old(uiState).(updateAvailableInfo := None)
    {
      uiState := uiState.(updateAvailableInfo := None);
    }
  }
}
